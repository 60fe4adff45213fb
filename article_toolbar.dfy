/**
 * The article toolbar: the mock summary sent to the chat and offered as a download with its
 * asterisks removed, and the podcast player's clock, progress bar and ticks.
 */
module ArticleToolbar {
  import opened Wrappers
  import opened Text
  import opened Articles
  import opened ChatStore

  // ---------------------------------------------------------------------------
  // The clock
  // ---------------------------------------------------------------------------

  /** JavaScript's `a % b` for a positive divisor: the remainder takes the sign of `a`. */
  function JsRem(a: int, b: int): (r: int)
    requires b > 0
    ensures a >= 0 ==> r == a % b
    ensures -b < r < b
  {
    if a >= 0 then a % b else -((-a) % b)
  }

  /** The label for `q` minutes and `x` seconds: the minutes, a colon, the seconds padded to two digits with zeros. */
  function MinutesSecondsLabel(q: nat, x: nat): string {
    DecimalString(q) + ":" + PadStart(DecimalString(x), 2, '0')
  }

  /** `fmt(s)`: `Math.floor(s / 60)`, a colon, and `s % 60` padded to two digits with zeros. */
  function Fmt(s: int): (r: string)
    ensures s >= 0 ==> r == MinutesSecondsLabel(s / 60, s % 60)
  {
    IntString(s / 60) + ":" + PadStart(IntString(JsRem(s, 60)), 2, '0')
  }

  /** A number of seconds under a minute, padded, is two digits that read back as the number. */
  lemma TwoDigitSeconds(x: nat)
    requires x < 60
    ensures var p := PadStart(DecimalString(x), 2, '0');
      |p| == 2 && AllDigits(p) && DecimalValue(p) == x
  {
    var d := DecimalString(x);
    var p := PadStart(d, 2, '0');
    DecimalRoundTrip(x);
    if x < 10 {
      assert p == ['0'] + d;
      assert p[..1] == "0";
      assert DecimalValue(p[..1]) == 0 by {
        assert p[..1][..0] == "";
      }
    } else {
      assert d == DecimalString(x / 10) + [DigitChar(x % 10)];
      assert p == d;
    }
  }

  predicate AllDigits(s: string) {
    forall i :: 0 <= i < |s| ==> IsDigit(s[i])
  }

  /** The seconds that `m` minutes and `ss` seconds stand for. */
  function MinutesSecondsValue(m: string, ss: string): nat
    requires AllDigits(m) && AllDigits(ss)
  {
    DecimalValue(m) * 60 + DecimalValue(ss)
  }

  lemma MinutesSecondsValueOf(m: string, ss: string, q: nat, x: nat)
    requires AllDigits(m) && AllDigits(ss)
    requires DecimalValue(m) == q && DecimalValue(ss) == x
    ensures MinutesSecondsValue(m, ss) == q * 60 + x
  {
  }

  /** Reading an "m:ss" label back as seconds; None for text of another shape. */
  function ClockSeconds(r: string): (n: Option<nat>)
  {
    if |r| >= 4 && r[|r| - 3] == ':' && AllDigits(r[..|r| - 3]) && AllDigits(r[|r| - 2..]) then
      Some(MinutesSecondsValue(r[..|r| - 3], r[|r| - 2..]))
    else None
  }

  /** Minutes, a colon and two seconds digits read back as minutes times 60 plus seconds. */
  lemma ClockSecondsOf(m: string, p: string)
    requires m != "" && AllDigits(m) && |p| == 2 && AllDigits(p)
    ensures ClockSeconds(m + ":" + p) == Some(MinutesSecondsValue(m, p))
  {
    var r := m + ":" + p;
    assert r[..|r| - 3] == m;
    assert r[|r| - 2..] == p;
  }

  lemma MinutesAndSeconds(s: nat)
    ensures (s / 60) * 60 + s % 60 == s
  {
  }

  /** The label built from `q` minutes and `x < 60` seconds reads back as `q * 60 + x` seconds. */
  lemma ClockOfMinutesSeconds(q: nat, x: nat)
    requires x < 60
    ensures ClockSeconds(MinutesSecondsLabel(q, x)) == Some(q * 60 + x)
  {
    var m := DecimalString(q);
    var p := PadStart(DecimalString(x), 2, '0');
    MinuteDigits(q);
    TwoDigitSeconds(x);
    ClockOfParts(m, p, q, x);
  }

  /** The minutes are a non-empty run of digits that reads back as the number. */
  lemma MinuteDigits(q: nat)
    ensures var m := DecimalString(q); m != "" && AllDigits(m) && DecimalValue(m) == q
  {
    DecimalRoundTrip(q);
  }

  /** Digits for `q` minutes, a colon and two digits for `x` seconds read back as `q * 60 + x`. */
  lemma ClockOfParts(m: string, p: string, q: nat, x: nat)
    requires m != "" && AllDigits(m) && |p| == 2 && AllDigits(p)
    requires DecimalValue(m) == q && DecimalValue(p) == x
    ensures ClockSeconds(m + ":" + p) == Some(q * 60 + x)
  {
    ClockSecondsOf(m, p);
    MinutesSecondsValueOf(m, p, q, x);
  }

  /** The clock reads back: the label for `s` seconds stands for `s` seconds. */
  lemma FmtRoundTrip(s: nat)
    ensures ClockSeconds(Fmt(s)) == Some(s)
  {
    var q := s / 60;
    var x := s % 60;
    MinutesAndSeconds(s);
    ClockOfMinutesSeconds(q, x);
  }

  /** `MOCK_DURATION`: a minute of audio per minute of reading. */
  function MockDuration(readingTime: nat): (d: nat)
    ensures d == readingTime * 60
  {
    readingTime * 60
  }

  /** `elapsed`: whole seconds played at `progress` percent. */
  function Elapsed(progress: real, duration: nat): (r: int)
    ensures r as real <= (progress / 100.0) * duration as real < r as real + 1.0
  {
    ((progress / 100.0) * duration as real).Floor
  }

  /** `remaining`. */
  function Remaining(progress: real, duration: nat): (r: int)
    ensures r + Elapsed(progress, duration) == duration
  {
    duration - Elapsed(progress, duration)
  }

  /** Inside the bar, elapsed and remaining time both lie between zero and the duration. */
  lemma ClockWithinDuration(progress: real, duration: nat)
    requires 0.0 <= progress <= 100.0
    ensures 0 <= Elapsed(progress, duration) <= duration
    ensures 0 <= Remaining(progress, duration) <= duration
  {
    var f := progress / 100.0;
    var d := duration as real;
    assert 0.0 <= f <= 1.0;
    assert 0.0 <= f * d by {
      assert f >= 0.0 && d >= 0.0;
    }
    assert f * d <= d by {
      assert (1.0 - f) * d >= 0.0;
    }
  }

  /** At the end of the bar the whole duration has played and "0:00" remains. */
  lemma ClockAtEnd(duration: nat)
    ensures Elapsed(100.0, duration) == duration
    ensures Fmt(Remaining(100.0, duration)) == "0:00"
  {
    assert (100.0 / 100.0) * duration as real == duration as real;
  }

  // ---------------------------------------------------------------------------
  // The podcast player
  // ---------------------------------------------------------------------------

  /** A click on the bar: the position, as a percentage, limited to [0, 100]. */
  function ClampProgress(x: real): (r: real)
    ensures 0.0 <= r <= 100.0
    ensures 0.0 <= x <= 100.0 ==> r == x
    ensures x < 0.0 ==> r == 0.0
    ensures x > 100.0 ==> r == 100.0
  {
    if x < 0.0 then 0.0 else if x > 100.0 then 100.0 else x
  }

  /** The interval's update of the progress: pinned at 100 once reached, otherwise one step on. */
  function TickProgress(progress: real, step: real): (r: real)
    ensures progress >= 100.0 ==> r == 100.0
    ensures progress < 100.0 ==> r == progress + step
  {
    if progress >= 100.0 then 100.0 else progress + step
  }

  /** From a position inside the bar, a tick never takes the progress beyond one step past 100. */
  lemma TickStaysNearBar(progress: real, step: real)
    requires 0.0 <= progress <= 100.0 && 0.0 <= step
    ensures 0.0 <= TickProgress(progress, step) <= 100.0 + step
  {
  }

  class PodcastPlayer {
    /** `MOCK_DURATION`. */
    const duration: nat
    var isPlaying: bool
    /** Percent played. */
    var progress: real
    var isGenerating: bool
    var isCollapsed: bool

    constructor (article: Article)
      ensures duration == MockDuration(article.readingTime)
      ensures !isPlaying && progress == 0.0 && isGenerating && !isCollapsed
    {
      duration := MockDuration(article.readingTime);
      isPlaying := false;
      progress := 0.0;
      isGenerating := true;
      isCollapsed := false;
    }

    /** The 1.8-second timer: the audio is ready. */
    method FinishGenerating()
      modifies this`isGenerating
      ensures !isGenerating
    {
      isGenerating := false;
    }

    /**
     * One interval tick, which runs only while playing a generated podcast. `step` stands for
     * `100 / MOCK_DURATION`. At or past 100 playback stops and the progress is pinned at 100.
     */
    method Tick(step: real)
      requires isPlaying && !isGenerating
      modifies this`progress, this`isPlaying
      ensures progress == TickProgress(old(progress), step)
      ensures isPlaying <==> old(progress) < 100.0
    {
      if progress >= 100.0 {
        isPlaying := false;
        progress := 100.0;
      } else {
        progress := progress + step;
      }
    }

    /** A click on either progress bar, at `position` percent of its width. */
    method Seek(position: real)
      modifies this`progress
      ensures progress == ClampProgress(position) && 0.0 <= progress <= 100.0
    {
      progress := if position < 0.0 then 0.0 else if position > 100.0 then 100.0 else position;
    }

    /** The restart button. */
    method Restart()
      modifies this`progress, this`isPlaying
      ensures progress == 0.0 && !isPlaying
    {
      progress := 0.0;
      isPlaying := false;
    }

    /** The play/pause buttons. */
    method TogglePlaying()
      modifies this`isPlaying
      ensures isPlaying == !old(isPlaying)
    {
      isPlaying := !isPlaying;
    }

    /** The collapse caret. */
    method ToggleCollapsed()
      modifies this`isCollapsed
      ensures isCollapsed == !old(isCollapsed)
    {
      isCollapsed := !isCollapsed;
    }

    /** The two clock labels: time played and time left. */
    function Clock(): (r: (string, string))
      reads this
      ensures r.0 == Fmt(Elapsed(progress, duration)) && r.1 == Fmt(Remaining(progress, duration))
    {
      (Fmt(Elapsed(progress, duration)), Fmt(Remaining(progress, duration)))
    }
  }

  // ---------------------------------------------------------------------------
  // The summary
  // ---------------------------------------------------------------------------

  const SummaryHeading: string := "**Resumen inteligente — "
  const SummaryAfterTitle: string := "**\n\n"
  const SummaryLead: string := "\n\nEste artículo explora"
    + " cómo "
  /** The fixed paragraphs, key points, disclaimer and the "generated by" line up to its date. */
  const SummaryBody: string :=
    " La narrativa se"
    + " estructura en torno a"
    + " tres ejes: identidad"
    + " cultural, tensión entre"
    + " tradición y modernidad,"
    + " y el papel de las"
    + " comunidades locales"
    + " como agentes de cambio."
    + "\n\n**Puntos clave:**\n- El"
    + " contexto histórico"
    + " define las decisiones"
    + " estéticas y políticas"
    + " del tema.\n- Las voces"
    + " locales y comunitarias"
    + " son centrales en la"
    + " conversación.\n- Existe"
    + " una tensión productiva"
    + " entre la preservación"
    + " del patrimonio y la"
    + " necesidad de"
    + " reinvención.\n\n---\n\n*⚠️"
    + " Este resumen fue"
    + " generado con"
    + " inteligencia artificial"
    + " y puede contener"
    + " imprecisiones. Te"
    + " recomendamos leer el"
    + " artículo completo para"
    + " una comprensión"
    + " profunda del tema.*"
    + "\n\n*Generado por CULTX · "
  const SummaryEnd: string := "*"

  /** `generateSummary(article)`; `date` stands for today's date as the locale formats it. */
  function GenerateSummary(article: Article, date: string): (r: string)
    ensures SummaryHeading + article.title <= r
  {
    SummaryHeading + article.title + SummaryAfterHeading(article, date)
  }

  /** What follows the title: the excerpt, the lower-cased subtitle inside the fixed text, and the date. */
  function SummaryAfterHeading(article: Article, date: string): string {
    SummaryAfterTitle + article.excerpt + SummaryLead + ToLowerAscii(article.subtitle) + SummaryBody + date + SummaryEnd
  }

  /**
   * The downloaded text: `**` and then `*` deleted everywhere, and `---` replaced by itself.
   */
  function DownloadText(summary: string): (r: string)
    ensures '*' !in r
    ensures r == ReplaceAll(ReplaceAll(summary, "**", ""), "*", "")
  {
    var r := ReplaceAll(ReplaceAll(ReplaceAll(summary, "**", ""), "*", ""), "---", "---");
    ReplaceAllBySelf(ReplaceAll(ReplaceAll(summary, "**", ""), "*", ""), "---");
    DeleteCharRemovesAll(ReplaceAll(summary, "**", ""), '*');
    r
  }

  /** The toolbar's own state. */
  class Toolbar {
    const article: Article
    var showPodcast: bool
    var summaryLoading: bool

    constructor (article: Article)
      ensures this.article == article && !showPodcast && !summaryLoading
    {
      this.article := article;
      showPodcast := false;
      summaryLoading := false;
    }

    /** The headphones button, and the player's close button when it is open. */
    method TogglePodcast()
      modifies this`showPodcast
      ensures showPodcast == !old(showPodcast)
    {
      showPodcast := !showPodcast;
    }

    /**
     * `handleSummary()` up to its pause: ignored while a summary is loading; otherwise loading
     * starts, the article becomes the chat's context and the sidebar opens.
     */
    method BeginSummary(store: Store)
      modifies this`summaryLoading, store`articleContext, store`chatMode
      ensures old(summaryLoading) ==>
                summaryLoading && store.articleContext == old(store.articleContext) && store.chatMode == old(store.chatMode)
      ensures !old(summaryLoading) ==>
                summaryLoading && store.articleContext == Some(article.title) && store.chatMode == Sidebar
    {
      if summaryLoading {
        return;
      }
      summaryLoading := true;
      store.SetArticleContext(Some(article.title));
      store.SetChatMode(Sidebar);
    }

    /** `handleSummary()` after its pause: the summary is appended as the assistant's message and loading ends. */
    method FinishSummary(store: Store, date: string, id: string, stamp: int)
      requires summaryLoading && store.Valid()
      modifies this`summaryLoading, store`messages, store`persisted
      ensures store.Valid() && !summaryLoading
      ensures store.messages == old(store.messages) + [ChatMessage(id, Assistant, GenerateSummary(article, date), stamp)]
    {
      var summary := GenerateSummary(article, date);
      store.AddMessage(Assistant, summary, id, stamp);
      summaryLoading := false;
    }
  }
}
