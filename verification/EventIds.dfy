/**
  The ids of the timeline events one call session emits, the order in which it issues them, and why no id
  is issued twice.
 */
module EventIds {
  import opened Common

  datatype EventId =
    | BargeStep(barge: nat, step: nat)
    | ChunkEvidence(barge: nat, ordinal: nat)
    | FrameEvidence(barge: nat, ordinal: nat)
    | PartialFrame(barge: nat)
    | SpeechStop(barge: nat)
    | PlaybackStart(playback: nat)
    | PlaybackStop(playback: nat)
    | Discontinuity(ordinal: nat)

  // ---------------------------------------------------------------- the text of an id

  function Digit(n: nat): char
    requires n < 10
  {
    "0123456789"[n]
  }

  function Decimal(n: nat): (text: string)
    ensures text != [] && forall i :: 0 <= i < |text| ==> '0' <= text[i] <= '9'
  {
    if n < 10 then [Digit(n)] else Decimal(n / 10) + [Digit(n % 10)]
  }

  function Suffix(id: EventId): string
    requires !id.PlaybackStart? && !id.PlaybackStop? && !id.Discontinuity?
  {
    match id
    case BargeStep(_, step) => Decimal(step)
    case ChunkEvidence(_, ordinal) => "provider-chunk:" + Decimal(ordinal)
    case FrameEvidence(_, ordinal) => "discarded-frame:" + Decimal(ordinal)
    case PartialFrame(_) => "discarded-partial-frame"
    case SpeechStop(_) => "caller-speech-stopped"
  }

  /** The string sent: each session draws one alias for its interruptions and one for its playback. */
  function Render(id: EventId, bargeAlias: string, playbackAlias: string): string {
    match id
    case PlaybackStart(n) => "assistant-playback-" + playbackAlias + "-" + Decimal(n) + ":start"
    case PlaybackStop(n) => "assistant-playback-" + playbackAlias + "-" + Decimal(n) + ":stop"
    case Discontinuity(n) => "pcm-discontinuity:" + Decimal(n)
    case _ => "barge-in-" + bargeAlias + "-" + Decimal(id.barge) + ":" + Suffix(id)
  }

  lemma {:induction false} DecimalInjective(m: nat, n: nat)
    requires Decimal(m) == Decimal(n)
    ensures m == n
  {
    var a, b := Decimal(m), Decimal(n);
    assert a[|a| - 1] == Digit(m % 10) && b[|b| - 1] == Digit(n % 10);
    if m >= 10 && n >= 10 {
      assert Decimal(m / 10) == a[..|a| - 1] && Decimal(n / 10) == b[..|b| - 1];
      DecimalInjective(m / 10, n / 10);
    }
  }

  /** The number that a text of digits stands for. */
  function ValueOf(text: string): int {
    if text == [] then 0 else 10 * ValueOf(text[..|text| - 1]) + (text[|text| - 1] as int - '0' as int)
  }

  /** The decimal text of a number stands for it and has no leading zero. */
  lemma {:induction false} DecimalReads(n: nat)
    ensures ValueOf(Decimal(n)) == n
    ensures n > 0 ==> Decimal(n)[0] != '0'
  {
    DigitReads(n % 10);
    if n >= 10 {
      DecimalReads(n / 10);
      assert Decimal(n)[..|Decimal(n)| - 1] == Decimal(n / 10);
      assert n / 10 > 0 && Decimal(n)[0] == Decimal(n / 10)[0];
    } else {
      DigitReads(n);
      assert Decimal(n)[..0] == [];
    }
  }

  lemma DigitReads(n: nat)
    requires n < 10
    ensures Digit(n) as int == '0' as int + n
  {
    var digits := "0123456789";
    assert digits[0] == '0' && digits[1] == '1' && digits[2] == '2' && digits[3] == '3' && digits[4] == '4';
    assert digits[5] == '5' && digits[6] == '6' && digits[7] == '7' && digits[8] == '8' && digits[9] == '9';
  }

  /** The texts of all kinds of ids. */
  lemma IdTexts(n: nat, k: nat, barges: string, playbacks: string)
    ensures Render(BargeStep(n, k), barges, playbacks) == "barge-in-" + barges + "-" + Decimal(n) + ":" + Decimal(k)
    ensures Render(ChunkEvidence(n, k), barges, playbacks)
         == "barge-in-" + barges + "-" + Decimal(n) + ":" + ("provider-chunk:" + Decimal(k))
    ensures Render(FrameEvidence(n, k), barges, playbacks)
         == "barge-in-" + barges + "-" + Decimal(n) + ":" + ("discarded-frame:" + Decimal(k))
    ensures Render(PartialFrame(n), barges, playbacks)
         == "barge-in-" + barges + "-" + Decimal(n) + ":" + "discarded-partial-frame"
    ensures Render(SpeechStop(n), barges, playbacks)
         == "barge-in-" + barges + "-" + Decimal(n) + ":" + "caller-speech-stopped"
    ensures Render(PlaybackStart(n), barges, playbacks) == "assistant-playback-" + playbacks + "-" + Decimal(n) + ":start"
    ensures Render(PlaybackStop(n), barges, playbacks) == "assistant-playback-" + playbacks + "-" + Decimal(n) + ":stop"
    ensures Render(Discontinuity(k), barges, playbacks) == "pcm-discontinuity:" + Decimal(k)
  {}

  lemma PrefixCancels(p: string, a: string, b: string)
    requires p + a == p + b
    ensures a == b
  {
    assert a == (p + a)[|p|..] && b == (p + b)[|p|..];
  }

  /** A number followed by a colon can be read back. */
  lemma NumberCancels(m: nat, n: nat, a: string, b: string)
    requires Decimal(m) + ":" + a == Decimal(n) + ":" + b
    ensures m == n && a == b
  {
    var left, right := Decimal(m) + ":" + a, Decimal(n) + ":" + b;
    var i, j := |Decimal(m)|, |Decimal(n)|;
    assert left[i] == ':' && right[j] == ':';
    assert forall k :: 0 <= k < i ==> left[k] == Decimal(m)[k];
    assert forall k :: 0 <= k < j ==> right[k] == Decimal(n)[k];
    assert i == j;
    assert Decimal(m) == left[..i] && Decimal(n) == right[..j];
    DecimalInjective(m, n);
    assert a == left[i + 1..] && b == right[j + 1..];
  }

  predicate IsBarge(id: EventId) {
    !id.PlaybackStart? && !id.PlaybackStop? && !id.Discontinuity?
  }

  /** Which kind of suffix a text is, read off its letters. */
  function Reading(text: string): nat {
    if text == [] || '0' <= text[0] <= '9' then 0
    else if text[0] == 'p' then 1
    else if text[0] == 'c' then 2
    else if |text| > 10 && text[10] == 'f' then 3
    else 4
  }

  lemma ReadSuffix(id: EventId)
    requires IsBarge(id)
    ensures Reading(Suffix(id)) == (match id
                                    case BargeStep(_, _) => 0
                                    case ChunkEvidence(_, _) => 1
                                    case FrameEvidence(_, _) => 3
                                    case PartialFrame(_) => 4
                                    case SpeechStop(_) => 2)
  {
  }

  lemma SuffixInjective(a: EventId, b: EventId)
    requires IsBarge(a) && IsBarge(b) && a.barge == b.barge && Suffix(a) == Suffix(b)
    ensures a == b
  {
    ReadSuffix(a);
    ReadSuffix(b);
    match a
    case BargeStep(_, m) =>
      DecimalInjective(m, b.step);
    case ChunkEvidence(_, m) =>
      PrefixCancels("provider-chunk:", Decimal(m), Decimal(b.ordinal));
      DecimalInjective(m, b.ordinal);
    case FrameEvidence(_, m) =>
      PrefixCancels("discarded-frame:", Decimal(m), Decimal(b.ordinal));
      DecimalInjective(m, b.ordinal);
    case PartialFrame(_) =>
    case SpeechStop(_) =>
  }

  lemma BargeRenders(id: EventId, bargeAlias: string, playbackAlias: string)
    requires IsBarge(id)
    ensures Render(id, bargeAlias, playbackAlias)
         == ("barge-in-" + bargeAlias + "-") + (Decimal(id.barge) + ":" + Suffix(id))
  {
  }

  function PlaybackTail(id: EventId): string
    requires id.PlaybackStart? || id.PlaybackStop?
  {
    if id.PlaybackStart? then "start" else "stop"
  }

  lemma PlaybackRenders(id: EventId, bargeAlias: string, playbackAlias: string)
    requires id.PlaybackStart? || id.PlaybackStop?
    ensures Render(id, bargeAlias, playbackAlias)
         == ("assistant-playback-" + playbackAlias + "-") + (Decimal(id.playback) + ":" + PlaybackTail(id))
  {
    assert ":start" == ":" + "start" && ":stop" == ":" + "stop";
  }

  /** Two events of one session have the same id string only if they are the same id. */
  lemma RenderInjective(a: EventId, b: EventId, bargeAlias: string, playbackAlias: string)
    requires Render(a, bargeAlias, playbackAlias) == Render(b, bargeAlias, playbackAlias)
    ensures a == b
  {
    RenderKinds(a, b, bargeAlias, playbackAlias);
    if IsBarge(a) {
      BargeRenders(a, bargeAlias, playbackAlias);
      BargeRenders(b, bargeAlias, playbackAlias);
      PrefixCancels("barge-in-" + bargeAlias + "-",
                    Decimal(a.barge) + ":" + Suffix(a), Decimal(b.barge) + ":" + Suffix(b));
      NumberCancels(a.barge, b.barge, Suffix(a), Suffix(b));
      SuffixInjective(a, b);
    } else if a.Discontinuity? {
      PrefixCancels("pcm-discontinuity:", Decimal(a.ordinal), Decimal(b.ordinal));
      DecimalInjective(a.ordinal, b.ordinal);
    } else {
      PlaybackRenders(a, bargeAlias, playbackAlias);
      PlaybackRenders(b, bargeAlias, playbackAlias);
      PrefixCancels("assistant-playback-" + playbackAlias + "-",
                    Decimal(a.playback) + ":" + PlaybackTail(a), Decimal(b.playback) + ":" + PlaybackTail(b));
      NumberCancels(a.playback, b.playback, PlaybackTail(a), PlaybackTail(b));
      assert "start"[2] == 'a' && "stop"[2] == 'o';
    }
  }

  /** The first letter tells the three families apart. */
  lemma RenderKinds(a: EventId, b: EventId, bargeAlias: string, playbackAlias: string)
    requires Render(a, bargeAlias, playbackAlias) == Render(b, bargeAlias, playbackAlias)
    ensures IsBarge(a) == IsBarge(b) && a.Discontinuity? == b.Discontinuity?
  {
    FirstLetter(a, bargeAlias, playbackAlias);
    FirstLetter(b, bargeAlias, playbackAlias);
  }

  lemma FirstLetter(id: EventId, bargeAlias: string, playbackAlias: string)
    ensures var text := Render(id, bargeAlias, playbackAlias);
            text != [] && text[0] == (if IsBarge(id) then 'b' else if id.Discontinuity? then 'p' else 'a')
  {
  }

  // ---------------------------------------------------------------- the order of issue

  /** What has been issued: the highest number of each kind, the count of discontinuities, and the interruption under way. */
  datatype Issue = Issue(barge: nat, step: nat, chunk: nat, frame: nat, partial: bool, speech: nat,
                         playback: nat, open: bool, discontinuity: nat)

  const NOTHING := Issue(0, 0, 0, 0, false, 0, 0, false, 0)

  /** The ids a session may issue next. */
  predicate Next(issue: Issue, id: EventId) {
    match id
    case BargeStep(n, step) =>
      (n == issue.barge + 1 && step == 1) || (n == issue.barge > 0 && step == issue.step + 1)
    case ChunkEvidence(n, ordinal) => n == issue.barge && ordinal > issue.chunk
    case FrameEvidence(n, ordinal) => n == issue.barge && ordinal > issue.frame
    case PartialFrame(n) => n == issue.barge && !issue.partial
    case SpeechStop(n) => issue.speech < n <= issue.barge
    case PlaybackStart(n) => n == issue.playback + 1 && !issue.open
    case PlaybackStop(n) => n == issue.playback && issue.open
    case Discontinuity(n) => n == issue.discontinuity
  }

  function Issuing(issue: Issue, id: EventId): Issue {
    match id
    case BargeStep(n, step) =>
      if n == issue.barge then issue.(step := step)
      else issue.(barge := n, step := step, chunk := 0, frame := 0, partial := false)
    case ChunkEvidence(_, ordinal) => issue.(chunk := ordinal)
    case FrameEvidence(_, ordinal) => issue.(frame := ordinal)
    case PartialFrame(_) => issue.(partial := true)
    case SpeechStop(n) => issue.(speech := n)
    case PlaybackStart(n) => issue.(playback := n, open := true)
    case PlaybackStop(_) => issue.(open := false)
    case Discontinuity(n) => issue.(discontinuity := n + 1)
  }

  function Issued(ids: seq<EventId>): Issue {
    if ids == [] then NOTHING else Issuing(Issued(ids[..|ids| - 1]), ids[|ids| - 1])
  }

  /** The ids were issued one after the other by the rules above. */
  ghost predicate InOrder(ids: seq<EventId>) {
    forall i :: 0 <= i < |ids| ==> Next(Issued(ids[..i]), ids[i])
  }

  lemma InOrderAppend(ids: seq<EventId>, id: EventId)
    requires InOrder(ids) && Next(Issued(ids), id)
    ensures InOrder(ids + [id]) && Issued(ids + [id]) == Issuing(Issued(ids), id)
  {
    assert (ids + [id])[..|ids|] == ids;
    forall i | 0 <= i < |ids| ensures Next(Issued((ids + [id])[..i]), (ids + [id])[i]) {
      assert (ids + [id])[..i] == ids[..i];
    }
  }

  /** The ids that can no longer be issued. */
  predicate Used(issue: Issue, id: EventId) {
    match id
    case BargeStep(n, step) => n < issue.barge || (n == issue.barge && step <= issue.step)
    case ChunkEvidence(n, ordinal) => n < issue.barge || (n == issue.barge && ordinal <= issue.chunk)
    case FrameEvidence(n, ordinal) => n < issue.barge || (n == issue.barge && ordinal <= issue.frame)
    case PartialFrame(n) => n < issue.barge || (n == issue.barge && issue.partial)
    case SpeechStop(n) => n <= issue.speech
    case PlaybackStart(n) => n <= issue.playback
    case PlaybackStop(n) => n < issue.playback || (n == issue.playback && !issue.open)
    case Discontinuity(n) => n < issue.discontinuity
  }

  lemma IssuingUses(issue: Issue, id: EventId, other: EventId)
    requires Next(issue, id)
    ensures !Used(issue, id) && Used(Issuing(issue, id), id)
    ensures Used(issue, other) ==> Used(Issuing(issue, id), other)
  {
  }

  lemma {:induction false} IssuedAreUsed(ids: seq<EventId>, i: nat)
    requires InOrder(ids) && i < |ids|
    ensures Used(Issued(ids), ids[i])
  {
    var n := |ids| - 1;
    assert forall k :: 0 <= k < n ==> ids[..n][..k] == ids[..k];
    IssuingUses(Issued(ids[..n]), ids[n], ids[i]);
    if i < n {
      IssuedAreUsed(ids[..n], i);
    }
  }

  /** No id is issued twice, and no two of the strings sent are equal. */
  lemma IssuedOnce(ids: seq<EventId>, bargeAlias: string, playbackAlias: string)
    requires InOrder(ids)
    ensures Distinct(ids)
    ensures Distinct(Rendered(ids, bargeAlias, playbackAlias))
  {
    forall i, j | 0 <= i < j < |ids| ensures ids[i] != ids[j] {
      assert forall k :: 0 <= k < j ==> ids[..j][..k] == ids[..k];
      IssuedAreUsed(ids[..j], i);
      IssuingUses(Issued(ids[..j]), ids[j], ids[i]);
    }
    forall i, j | 0 <= i < j < |ids|
      ensures Render(ids[i], bargeAlias, playbackAlias) != Render(ids[j], bargeAlias, playbackAlias)
    {
      if Render(ids[i], bargeAlias, playbackAlias) == Render(ids[j], bargeAlias, playbackAlias) {
        RenderInjective(ids[i], ids[j], bargeAlias, playbackAlias);
      }
    }
  }

  function Rendered(ids: seq<EventId>, bargeAlias: string, playbackAlias: string): seq<string> {
    seq(|ids|, i requires 0 <= i < |ids| => Render(ids[i], bargeAlias, playbackAlias))
  }

  // ---------------------------------------------------------------- playback bursts

  /** Only the starts and stops of assistant playback. */
  function PlaybackEvents(ids: seq<EventId>): seq<EventId> {
    if ids == [] then []
    else
      var last := ids[|ids| - 1];
      PlaybackEvents(ids[..|ids| - 1]) + if last.PlaybackStart? || last.PlaybackStop? then [last] else []
  }

  /** Start 1, stop 1, start 2, stop 2, and so on. */
  function Alternation(n: int): seq<EventId> {
    seq(if n < 0 then 0 else n, i requires 0 <= i => if i % 2 == 0 then PlaybackStart(i / 2 + 1) else PlaybackStop(i / 2 + 1))
  }

  function Bursts(issue: Issue): int {
    2 * issue.playback - if issue.open then 1 else 0
  }

  lemma OneMoreEvent(issue: Issue, id: EventId)
    requires Next(issue, id) && (issue.open ==> issue.playback > 0)
    ensures Issuing(issue, id).open ==> Issuing(issue, id).playback > 0
    ensures Alternation(Bursts(Issuing(issue, id)))
         == Alternation(Bursts(issue)) + if id.PlaybackStart? || id.PlaybackStop? then [id] else []
  {
  }

  /** Starts and stops strictly alternate, every start under a fresh number. */
  lemma {:induction false} PlaybackAlternates(ids: seq<EventId>)
    requires InOrder(ids)
    ensures Issued(ids).open ==> Issued(ids).playback > 0
    ensures PlaybackEvents(ids) == Alternation(Bursts(Issued(ids)))
  {
    if ids != [] {
      var n := |ids| - 1;
      assert InOrder(ids[..n]) by {
        assert forall k :: 0 <= k < n ==> ids[..n][..k] == ids[..k];
      }
      PlaybackAlternates(ids[..n]);
      OneMoreEvent(Issued(ids[..n]), ids[n]);
    }
  }

  lemma BurstStep(issue: Issue, id: EventId)
    requires Next(issue, id)
    ensures issue.playback <= Issuing(issue, id).playback
    ensures Issuing(issue, id).open && !issue.open ==> issue.playback < Issuing(issue, id).playback
  {
  }

  lemma InOrderInit(ids: seq<EventId>)
    requires InOrder(ids) && ids != []
    ensures InOrder(ids[..|ids| - 1]) && Next(Issued(ids[..|ids| - 1]), ids[|ids| - 1])
  {
    var n := |ids| - 1;
    assert forall k :: 0 <= k < n ==> ids[..n][..k] == ids[..k];
  }

  /** Burst numbers do not go back, and a burst opened after none was open has a number of its own. */
  lemma {:induction false} BurstsGrow(before: seq<EventId>, ids: seq<EventId>)
    requires InOrder(ids) && before <= ids
    ensures Issued(before).playback <= Issued(ids).playback
    ensures Issued(ids).open && !Issued(before).open ==> Issued(before).playback < Issued(ids).playback
    decreases |ids|
  {
    if |before| < |ids| {
      var init := ids[..|ids| - 1];
      InOrderInit(ids);
      BurstsGrow(before, init);
      BurstStep(Issued(init), ids[|ids| - 1]);
    } else {
      assert before == ids;
    }
  }
}
