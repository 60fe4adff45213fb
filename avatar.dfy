/**
 * The avatar initials shared by the navigation bar and the profile page:
 * `displayName.split(" ").map((n) => n[0]).join("").toUpperCase().slice(0, 2)`,
 * else the first letter of the e-mail upper-cased, else a fallback.
 */
module Avatar {
  import opened Wrappers
  import opened Text
  import opened Seqs

  /** The words that have a first character: the empty words the split leaves between doubled spaces give none. */
  function NonEmptyWords(words: seq<string>): (r: seq<string>)
    ensures forall i :: 0 <= i < |r| ==> r[i] != ""
  {
    Filter(words, (w: string) => w != "")
  }

  /** `words.map((n) => n[0]).join("")`: an empty word gives `undefined`, which joins as nothing. */
  function FirstChars(words: seq<string>): (r: string)
    ensures |r| == |NonEmptyWords(words)|
    ensures forall i :: 0 <= i < |r| ==> r[i] == NonEmptyWords(words)[i][0]
  {
    if words == [] then ""
    else
      var head := if words[0] != "" then [words[0][0]] else "";
      head + FirstChars(words[1..])
  }

  /**
   * The initials: for a truthy name the upper-cased first characters of its words, in order,
   * at most two; else the e-mail's first letter upper-cased; else `fallback`.
   */
  function Initials(displayName: Option<string>, email: Option<string>, fallback: string): (r: string)
    ensures Truthy(displayName) ==>
              var words := NonEmptyWords(Split(displayName.value, " "));
              && |r| == Min(2, |words|)
              && forall i :: 0 <= i < |r| ==> r[i] == UpperChar(words[i][0])
    ensures !Truthy(displayName) && Truthy(email) ==> r == [UpperChar(email.value[0])]
    ensures !Truthy(displayName) && !Truthy(email) ==> r == fallback
  {
    if Truthy(displayName) then
      var chars := FirstChars(Split(displayName.value, " "));
      var upper := ToUpperAscii(chars);
      Slice(upper, 0, 2)
    else if Truthy(email) then
      [UpperChar(email.value[0])]
    else
      fallback
  }

  /** A name with no space splits into itself. */
  lemma SplitWithoutSpace(s: string)
    requires forall k :: 0 <= k < |s| ==> s[k] != ' '
    ensures Split(s, " ") == [s]
  {
    forall j: nat | j < |s|
      ensures !OccursAt(s, " ", j)
    {
      assert s[j..j + 1][0] == s[j];
    }
    assert IndexOfFrom(s, " ", 0).None?;
  }

  /** Two words separated by one space split into those two words. */
  lemma SplitTwoWords(a: string, b: string)
    requires forall k :: 0 <= k < |a| ==> a[k] != ' '
    requires forall k :: 0 <= k < |b| ==> b[k] != ' '
    ensures Split(a + " " + b, " ") == [a, b]
  {
    var s := a + " " + b;
    assert s[|a|..|a| + 1] == " ";
    assert OccursAt(s, " ", |a|);
    var found := IndexOfFrom(s, " ", 0);
    assert found.Some?;
    var k := found.value;
    assert s[k] == s[k..k + 1][0];
    assert k == |a|;
    assert s[..k] == a;
    assert s[k + 1..] == b;
    SplitWithoutSpace(b);
  }

  /** "Ana María" and the like: a first and a last name give their two upper-cased initials. */
  lemma TwoWordNameInitials(a: string, b: string, email: Option<string>, fallback: string)
    requires a != "" && b != ""
    requires forall k :: 0 <= k < |a| ==> a[k] != ' '
    requires forall k :: 0 <= k < |b| ==> b[k] != ' '
    ensures Initials(Some(a + " " + b), email, fallback) == [UpperChar(a[0]), UpperChar(b[0])]
  {
    SplitTwoWords(a, b);
    var words := [a, b];
    assert words[1..] == [b];
    assert [b][1..] == [];
    assert FirstChars(words) == [a[0], b[0]];
  }
}
