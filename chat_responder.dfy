/**
 * The deterministic chat responder: a pool entry chosen by the combined length of the message
 * and the conversation, the article-title template in slot 8, and a suffix by profile tier.
 *
 * The responder is defined over its text tables, so that the proofs about the selection do
 * not depend on the wording of the texts; `GetChatResponse` applies it to the application's
 * own tables, `SourceTables`.
 */
module ChatResponder {
  import opened Wrappers
  import opened Text
  import opened Types

  /** The fixed texts: the response pool, the academic appendages, the template's tail, the student follow-up. */
  datatype Tables = Tables(pool: seq<string>, appendages: seq<string>, contextTail: string, studentFollowUp: string)

  /** The heading every academic appendage opens with. */
  const AcademicContextHeading: string := "\n\nAcademic context: "

  /** The shape of the application's tables: nine slots of which only slot 8 is empty, four academic paragraphs. */
  ghost predicate WellShaped(t: Tables) {
    && |t.pool| == 9
    && t.pool[8] == ""
    && (forall i :: 0 <= i < 8 ==> t.pool[i] != "")
    && |t.appendages| == 4
    && (forall k :: 0 <= k < 4 ==> AcademicContextHeading <= t.appendages[k])
    && t.studentFollowUp != ""
  }

  /** `ChatResponseInput`. */
  datatype ChatResponseInput = ChatResponseInput(
    userMessage: string,
    articleContext: Option<string>,
    profileType: Option<string>,
    messageCount: nat)

  /** `(userMessage.length + messageCount) % RESPONSE_POOL.length`. */
  function SelectionIndex(t: Tables, input: ChatResponseInput): (i: nat)
    requires |t.pool| > 0
    ensures i < |t.pool|
  {
    (|input.userMessage| + input.messageCount) % |t.pool|
  }

  /** Each further message in the conversation moves the selection on by one slot, wrapping around. */
  lemma SelectionAdvances(t: Tables, input: ChatResponseInput)
    requires WellShaped(t)
    ensures SelectionIndex(t, input.(messageCount := input.messageCount + 1)) == (SelectionIndex(t, input) + 1) % 9
  {
  }

  /** The answer about the article under discussion. */
  function ContextTemplate(t: Tables, title: string): (r: string)
    ensures Contains(r, Guillemets(title))
    ensures "On «" <= r
  {
    ContainsInMiddle("On ", Guillemets(title), t.contextTail);
    "On " + Guillemets(title) + t.contextTail
  }

  /** The response before the tier suffix: the template for slot 8, otherwise the pool entry. */
  function BaseResponse(t: Tables, index: nat, articleContext: Option<string>): (r: string)
    requires index < |t.pool|
    ensures (index == 8 || index >= |t.pool| - 1) && Truthy(articleContext) ==> Contains(r, Guillemets(articleContext.value))
    ensures !Truthy(articleContext) ==> r in t.pool
    ensures index != 8 && index < |t.pool| - 1 ==> r == t.pool[index]
  {
    if index == 8 || (Truthy(articleContext) && index >= |t.pool| - 1) then
      if Truthy(articleContext) then ContextTemplate(t, articleContext.value) else t.pool[0]
    else
      t.pool[index]
  }

  /** What the profile tier appends: an academic paragraph, the student follow-up, or nothing. */
  function ProfileSuffix(t: Tables, input: ChatResponseInput): (r: string)
    requires |t.appendages| > 0
    ensures IsAcademicTier(input.profileType) ==> r in t.appendages
    ensures !IsAcademicTier(input.profileType) && IsStudentTier(input.profileType) ==> r == t.studentFollowUp
    ensures !IsAcademicTier(input.profileType) && !IsStudentTier(input.profileType) ==> r == ""
  {
    if IsAcademicTier(input.profileType) then
      t.appendages[(|input.userMessage| + input.messageCount) % |t.appendages|]
    else if IsStudentTier(input.profileType) then t.studentFollowUp
    else ""
  }

  /** `getChatResponse(input)` over the tables `t`: the base response with the tier's suffix appended. */
  function Respond(t: Tables, input: ChatResponseInput): (r: string)
    requires |t.pool| > 0 && |t.appendages| > 0
    ensures var base := BaseResponse(t, SelectionIndex(t, input), input.articleContext);
      base <= r && r[|base|..] == ProfileSuffix(t, input)
  {
    BaseResponse(t, SelectionIndex(t, input), input.articleContext) + ProfileSuffix(t, input)
  }

  // ---------------------------------------------------------------------------
  // What the responder promises, for tables of the application's shape
  // ---------------------------------------------------------------------------

  /** Slots 0 to 7 answer with their entry; slot 8 uses the template for a truthy title and entry 0 otherwise. */
  lemma BaseBySlot(t: Tables, index: nat, articleContext: Option<string>)
    requires WellShaped(t) && index < 9
    ensures index < 8 ==> BaseResponse(t, index, articleContext) == t.pool[index]
    ensures index == 8 && Truthy(articleContext) ==>
              BaseResponse(t, index, articleContext) == ContextTemplate(t, articleContext.value)
    ensures index == 8 && !Truthy(articleContext) ==> BaseResponse(t, index, articleContext) == t.pool[0]
  {
  }

  /** The empty placeholder in slot 8 is never a base, so every response is non-empty. */
  lemma ResponseNonEmpty(t: Tables, input: ChatResponseInput)
    requires WellShaped(t)
    ensures BaseResponse(t, SelectionIndex(t, input), input.articleContext) != t.pool[8]
    ensures Respond(t, input) != ""
  {
    var i := SelectionIndex(t, input);
    BaseBySlot(t, i, input.articleContext);
    if i == 8 && Truthy(input.articleContext) {
      assert "On «" <= BaseResponse(t, i, input.articleContext);
    }
  }

  /** Slot 8 quotes a truthy article title in guillemets. */
  lemma ContextSlotQuotesTitle(t: Tables, input: ChatResponseInput)
    requires WellShaped(t) && SelectionIndex(t, input) == 8 && Truthy(input.articleContext)
    ensures Contains(Respond(t, input), Guillemets(input.articleContext.value))
  {
    var r := Respond(t, input);
    BaseBySlot(t, 8, input.articleContext);
    var base := ContextTemplate(t, input.articleContext.value);
    var g := Guillemets(input.articleContext.value);
    var i: nat :| OccursAt(base, g, i);
    assert r[i..i + |g|] == base[i..i + |g|];
    assert OccursAt(r, g, i);
  }

  /** The suffix by tier: an "Academic context" paragraph, the study follow-up, or nothing at all. */
  lemma SuffixByTier(t: Tables, input: ChatResponseInput)
    requires WellShaped(t)
    ensures var k := (|input.userMessage| + input.messageCount) % 4;
      IsAcademicTier(input.profileType) ==>
        ProfileSuffix(t, input) == t.appendages[k] && AcademicContextHeading <= ProfileSuffix(t, input)
    ensures !IsAcademicTier(input.profileType) && IsStudentTier(input.profileType) ==>
              ProfileSuffix(t, input) == t.studentFollowUp
    ensures ProfileSuffix(t, input) == "" <==> !IsAcademicTier(input.profileType) && !IsStudentTier(input.profileType)
  {
    if IsAcademicTier(input.profileType) {
      var k := (|input.userMessage| + input.messageCount) % 4;
      assert AcademicContextHeading <= t.appendages[k];
    }
  }

  /** Outside slot 8 an article title changes nothing. */
  lemma ContextIgnoredOutsideSlot8(t: Tables, input: ChatResponseInput, other: Option<string>)
    requires WellShaped(t) && SelectionIndex(t, input) < 8
    ensures Respond(t, input) == Respond(t, input.(articleContext := other))
  {
  }

  /** The response depends on the message only through its length plus the conversation length. */
  lemma ResponseDependsOnTotalLength(t: Tables, a: ChatResponseInput, b: ChatResponseInput)
    requires |t.pool| > 0 && |t.appendages| > 0
    requires |a.userMessage| + a.messageCount == |b.userMessage| + b.messageCount
    requires a.articleContext == b.articleContext && a.profileType == b.profileType
    ensures Respond(t, a) == Respond(t, b)
  {
  }

  // ---------------------------------------------------------------------------
  // The application's tables
  // ---------------------------------------------------------------------------

  /** `RESPONSE_POOL`: eight written answers and the empty placeholder of slot 8. */
  const ResponsePool: seq<string> := [
    // 0: Muralism (Rivera, Orozco, Siqueiros)
    "Mexican muralism is "
    + "perhaps the most "
    + "influential artistic "
    + "movement of the 20th "
    + "century in Latin "
    + "America. Diego Rivera, "
    + "José Clemente Orozco, "
    + "and David Alfaro "
    + "Siqueiros transformed "
    + "public building walls "
    + "into visual epics of "
    + "popular identity. Their "
    + "bet was radical: art "
    + "should not be in museums "
    + "but in the streets, "
    + "accessible to everyone.",
    // 1: Architecture (UNAM, Barragán, Legorreta)
    "20th-century Mexican "
    + "architecture achieved "
    + "something rare: creating "
    + "its own language between "
    + "modernity and tradition. "
    + "Luis Barragán introduced "
    + "silence and color as "
    + "building materials. His "
    + "use of earth-toned, "
    + "fuchsia, and intense "
    + "yellow walls is "
    + "inseparable from the "
    + "light of the Mexican "
    + "highlands. The UNAM "
    + "campus, declared a World "
    + "Heritage Site, takes "
    + "that dialogue even "
    + "further, with murals "
    + "integrated into the "
    + "structure itself.",
    // 2: Pre-Hispanic cultures (Maya, Aztec, Zapotec)
    "Mexico's pre-Hispanic "
    + "cultures were not "
    + "monolithic but an "
    + "archipelago of "
    + "civilizations. The Maya "
    + "developed a calendar "
    + "system of astonishing "
    + "astronomical precision; "
    + "the Zapotecs at Monte "
    + "Albán created one of the "
    + "continent's first urban "
    + "centers; the Mexica "
    + "built Tenochtitlan on a "
    + "lake — one of the "
    + "largest cities in the "
    + "world in the 15th "
    + "century. Each left "
    + "layers of meaning that "
    + "still structure "
    + "contemporary Mexican "
    + "culture.",
    // 3: Mexican cinema (Buñuel, Cuarón, del Toro)
    "Mexico has one of the "
    + "richest cinematic "
    + "traditions in the "
    + "Spanish-speaking world. "
    + "Luis Buñuel chose Mexico "
    + "as his second home and "
    + "shot some of his "
    + "surrealist masterpieces "
    + "there. Decades later, "
    + "Alfonso Cuarón, "
    + "Guillermo del Toro, and "
    + "Iñárritu reinvented "
    + "global auteur cinema "
    + "from a deeply Mexican "
    + "sensibility — proving "
    + "that the local and the "
    + "universal are not "
    + "opposites.",
    // 4: Music and regional traditions (son jarocho, norteño, cumbia)
    "Mexican popular music is "
    + "a mosaic of regions and "
    + "eras. Son jarocho from "
    + "the Gulf coast, with its "
    + "collective footwork on "
    + "the fandango platform, "
    + "is as much ritual as "
    + "celebration. Norteño "
    + "music from the border "
    + "north tells stories of "
    + "migration and resistance "
    + "with accordion and bajo "
    + "sexto. Cumbia arrived "
    + "from Colombia and was "
    + "reinvented in "
    + "working-class "
    + "neighborhoods until it "
    + "became entirely Mexican. "
    + "Each genre is a sonic "
    + "archive of collective "
    + "experiences.",
    // 5: Contemporary Mexican art
    "Contemporary Mexican art "
    + "is experiencing a moment "
    + "of ferment. Artists like "
    + "Gabriel Orozco and "
    + "Damián Ortega have spent "
    + "decades engaging with "
    + "major international "
    + "circuits without "
    + "abandoning a critical "
    + "eye on everyday Mexican "
    + "life. At the same time, "
    + "a new generation of "
    + "indigenous women artists "
    + "and community "
    + "collectives is reshaping "
    + "who has the right to "
    + "produce and define "
    + "'national culture'.",
    // 6: Mexican literature (Paz, Fuentes, Poniatowska, Rulfo)
    "20th-century Mexican "
    + "literature gave the "
    + "world voices that are "
    + "now global references. "
    + "Octavio Paz explored "
    + "national identity with "
    + "almost archaeological "
    + "lucidity in 'The "
    + "Labyrinth of Solitude'. "
    + "Juan Rulfo achieved "
    + "something unrepeatable: "
    + "condensing the epic of "
    + "the Revolution into two "
    + "slim books that remain "
    + "inexhaustible. Elena "
    + "Poniatowska turned "
    + "journalism into "
    + "literature by giving "
    + "voice to the silenced. "
    + "Carlos Fuentes connected "
    + "Mexico with Europe and "
    + "Latin America in an "
    + "unprecedented "
    + "intellectual "
    + "conversation.",
    // 7: Folk art and crafts
    "Mexican folk art is one "
    + "of the country's most "
    + "vibrant and threatened "
    + "heritages. From Oaxacan "
    + "alebrijes to Talavera "
    + "ceramics from Puebla, "
    + "from Zapotec textiles to "
    + "Guerrero masks, each "
    + "piece condenses "
    + "generations of technical "
    + "and cosmological "
    + "knowledge. The risk is "
    + "twofold: "
    + "industrialization that "
    + "cheapens and empties "
    + "meaning, and "
    + "appropriation that "
    + "removes pieces from "
    + "their context without "
    + "giving back to their "
    + "communities.",
    // 8: Placeholder for the article template
    ""
  ]

  /** `ACADEMIC_APPENDAGES`. */
  const AcademicAppendages: seq<string> := [
    // 0: García Canclini
    AcademicContextHeading
    + ("This phenomenon has been "
       + "studied by García "
       + "Canclini within the "
       + "framework of Latin "
       + "American hybrid cultures "
       + "(1989). His analysis "
       + "suggests that peripheral "
       + "modernity in Mexico "
       + "generates unique "
       + "cultural forms that "
       + "cannot be reduced to "
       + "Eurocentric categories."),
    // 1: Bonfil Batalla
    AcademicContextHeading
    + ("Bonfil Batalla in "
       + "'México profundo' (1987) "
       + "argues that Mesoamerican "
       + "civilization did not "
       + "disappear with the "
       + "Conquest but survives as "
       + "an active cultural "
       + "substrate, in permanent "
       + "tension with the Western "
       + "modernization project."),
    // 2: Bartra
    AcademicContextHeading
    + ("Roger Bartra in 'The "
       + "Cage of Melancholy' "
       + "(1987) deconstructs the "
       + "myths of Mexican "
       + "national character, "
       + "showing how the "
       + "'archetypal Mexican' is "
       + "in reality an "
       + "ideological construction "
       + "of post-revolutionary "
       + "elites."),
    // 3: Monsiváis
    AcademicContextHeading
    + ("Monsiváis exhaustively "
       + "documented how "
       + "20th-century Mexican "
       + "urban popular culture "
       + "constituted a space of "
       + "resistance and identity "
       + "negotiation against the "
       + "hegemony of the "
       + "post-revolutionary state "
       + "('Rituals of Chaos', "
       + "1995).")
  ]

  /** The template's text after the quoted title. */
  const ContextTail: string :=
    ": this topic reflects "
    + "one of the richest "
    + "tensions in contemporary "
    + "Mexican culture — the "
    + "negotiation between "
    + "local identity and "
    + "global narrative. There "
    + "are historical, "
    + "aesthetic, and political "
    + "layers worth unpacking. "
    + "Would you like to "
    + "explore a specific "
    + "angle?"

  /** The follow-up the student tier gets. */
  const StudentFollowUp: string := "\n\nWould you like me to go deeper on any aspect for your research?"

  const SourceTables: Tables := Tables(ResponsePool, AcademicAppendages, ContextTail, StudentFollowUp)

  lemma ResponsePoolShape()
    ensures |ResponsePool| == 9 && ResponsePool[8] == ""
    ensures forall i :: 0 <= i < 8 ==> ResponsePool[i] != ""
  {
  }

  lemma AcademicAppendagesShape()
    ensures |AcademicAppendages| == 4
    ensures forall k :: 0 <= k < 4 ==> AcademicContextHeading <= AcademicAppendages[k]
  {
  }

  lemma SourceTablesWellShaped()
    ensures WellShaped(SourceTables)
  {
    ResponsePoolShape();
    AcademicAppendagesShape();
  }

  /** `getChatResponse(input)`. */
  function GetChatResponse(input: ChatResponseInput): (r: string)
    ensures r != ""
    ensures var base := BaseResponse(SourceTables, SelectionIndex(SourceTables, input), input.articleContext);
      base <= r && r[|base|..] == ProfileSuffix(SourceTables, input)
  {
    SourceTablesWellShaped();
    ResponseNonEmpty(SourceTables, input);
    Respond(SourceTables, input)
  }
}
