/** What a buffered image-generation stream comes to. */
module ImageStream {
  import opened Prelude
  import opened Text

  datatype Details = Details(revisedPrompt: Option<string>, size: Option<string>, quality: Option<string>,
                             background: Option<string>, outputFormat: Option<string>)

  /** One event of the stream, by its kind. `wait` is the usage-limit wait an
      error names, in nanoseconds. */
  datatype Event =
    | ImageCall(failed: bool, result: Option<string>, details: Details)
    | Message(parts: seq<Option<string>>)
    | Completed(usage: Option<string>)
    | Error(code: Option<string>, errorType: Option<string>, message: Option<string>, wait: Option<nat>)
    | Ignored

  datatype FailureKind = UsageLimit(wait: Option<nat>) | Rejected | Unknown

  datatype GeneratedImage = GeneratedImage(b64: string, details: Details, text: Option<string>, usage: Option<string>)

  datatype StreamOutcome =
    | Image(image: GeneratedImage)
    | Failed(kind: FailureKind, code: string, message: string)
    | Refused(text: string)
    | NoImage
    | Incomplete

  function KindOf(code: string, wait: Option<nat>): FailureKind {
    var c := Lower(code);
    if Contains(c, "usage_limit") || Contains(c, "rate_limit") || Contains(c, "quota") then UsageLimit(wait)
    else if Contains(c, "moderation") || Contains(c, "content_policy") || Contains(c, "safety")
            || Contains(c, "invalid") || Contains(c, "user_error") then Rejected
    else Unknown
  }

  /** Capitals aside, the code has this word in it. */
  ghost predicate Mentions(code: string, word: string) {
    exists i: nat :: OccursAt(Lower(code), word, i)
  }

  lemma MentionsIs(code: string, word: string)
    ensures Contains(Lower(code), word) <==> Mentions(code, word)
  {
    ContainsMeans(Lower(code), word);
  }

  /** Which errors count as a usage limit, so that another account is asked, and
      which as a rejection of the prompt, so that none is. */
  lemma KindMeans(code: string, wait: Option<nat>)
    ensures KindOf(code, wait).UsageLimit? <==>
      Mentions(code, "usage_limit") || Mentions(code, "rate_limit") || Mentions(code, "quota")
    ensures KindOf(code, wait).Rejected? <==>
      && !KindOf(code, wait).UsageLimit?
      && (Mentions(code, "moderation") || Mentions(code, "content_policy") || Mentions(code, "safety")
          || Mentions(code, "invalid") || Mentions(code, "user_error"))
    ensures KindOf(code, wait).UsageLimit? ==> KindOf(code, wait).wait == wait
  {
    MentionsIs(code, "usage_limit");
    MentionsIs(code, "rate_limit");
    MentionsIs(code, "quota");
    MentionsIs(code, "moderation");
    MentionsIs(code, "content_policy");
    MentionsIs(code, "safety");
    MentionsIs(code, "invalid");
    MentionsIs(code, "user_error");
  }

  // ---- one event

  function ImageIn(e: Event): Option<GeneratedImage> {
    if e.ImageCall? && !e.failed && e.result.Some? && e.result.value != [] then
      Some(GeneratedImage(e.result.value, e.details, None, None))
    else None
  }

  function FailureIn(e: Event): Option<StreamOutcome> {
    if e.ImageCall? && e.failed then
      Some(Failed(Rejected, "image_generation_failed", "upstream image generation failed"))
    else if e.Error? then
      var code := e.code.GetOr(e.errorType.GetOr("upstream_error"));
      var message := e.message.GetOr("upstream image generation error");
      Some(Failed(KindOf(code, e.wait), code, if |message| <= 500 then message else message[..500]))
    else None
  }

  function Joined(parts: seq<Option<string>>): string {
    if parts == [] then [] else Joined(parts[..|parts| - 1]) + parts[|parts| - 1].GetOr([])
  }

  // ---- the whole stream

  /** The first thing `find` finds in an event. */
  function First<T>(es: seq<Event>, find: Event -> Option<T>): Option<T> {
    if es == [] then None
    else if First(es[..|es| - 1], find).Some? then First(es[..|es| - 1], find) else find(es[|es| - 1])
  }

  function FirstImage(es: seq<Event>): Option<GeneratedImage> { First(es, ImageIn) }

  function FirstFailure(es: seq<Event>): Option<StreamOutcome> { First(es, FailureIn) }

  function AllText(es: seq<Event>): string {
    if es == [] then []
    else AllText(es[..|es| - 1]) + if es[|es| - 1].Message? then Joined(es[|es| - 1].parts) else []
  }

  function LastUsage(es: seq<Event>): Option<string> {
    if es == [] then None
    else if es[|es| - 1].Completed? then es[|es| - 1].usage else LastUsage(es[..|es| - 1])
  }

  predicate HasCompleted(es: seq<Event>) { exists k :: 0 <= k < |es| && es[k].Completed? }

  function OutcomeOf(es: seq<Event>): StreamOutcome {
    var text := Trim(AllText(es));
    if FirstImage(es).Some? then
      Image(FirstImage(es).value.(text := if text != [] then Some(text) else None, usage := LastUsage(es)))
    else if FirstFailure(es).Some? then FirstFailure(es).value
    else if !HasCompleted(es) then Incomplete
    else if text == [] then NoImage
    else Refused(text)
  }

  ghost predicate FoundFirst<T>(es: seq<Event>, find: Event -> Option<T>, k: nat) {
    k < |es| && find(es[k]).Some? && forall j :: 0 <= j < k ==> find(es[j]).None?
  }

  lemma {:induction false} FirstMeans<T>(es: seq<Event>, find: Event -> Option<T>)
    ensures First(es, find).None? <==> forall k :: 0 <= k < |es| ==> find(es[k]).None?
    ensures First(es, find).Some? ==> exists k: nat :: FoundFirst(es, find, k) && find(es[k]) == First(es, find)
  {
    if es != [] {
      var front := es[..|es| - 1];
      FirstMeans(front, find);
      if First(front, find).Some? {
        var k: nat :| FoundFirst(front, find, k) && find(front[k]) == First(front, find);
        assert FoundFirst(es, find, k);
      } else {
        forall k | 0 <= k < |es| - 1 ensures find(es[k]).None? { assert es[k] == front[k]; }
        if find(es[|es| - 1]).Some? { assert FoundFirst(es, find, |es| - 1); }
      }
    }
  }

  lemma FailureIsFailed(e: Event)
    requires FailureIn(e).Some?
    ensures FailureIn(e).value.Failed?
  {
  }

  /** An image anywhere in the stream wins, whatever else the stream says; then
      the first failure; then a truncated stream; then the assistant's words. */
  lemma {:induction false} OutcomeMeans(es: seq<Event>)
    ensures OutcomeOf(es).Image? <==> exists k :: 0 <= k < |es| && ImageIn(es[k]).Some?
    ensures OutcomeOf(es).Image? ==>
      exists k: nat :: FoundFirst(es, ImageIn, k) && ImageIn(es[k]).value.b64 == OutcomeOf(es).image.b64
    ensures OutcomeOf(es).Failed? <==> !OutcomeOf(es).Image? && exists k :: 0 <= k < |es| && FailureIn(es[k]).Some?
    ensures OutcomeOf(es).Failed? ==>
      exists k: nat :: FoundFirst(es, FailureIn, k) && FailureIn(es[k]) == Some(OutcomeOf(es))
    ensures OutcomeOf(es).Incomplete? <==>
      !OutcomeOf(es).Image? && !OutcomeOf(es).Failed? && forall k :: 0 <= k < |es| ==> !es[k].Completed?
    ensures OutcomeOf(es).NoImage? <==>
      !OutcomeOf(es).Image? && !OutcomeOf(es).Failed? && !OutcomeOf(es).Incomplete? && Blank(AllText(es))
  {
    FirstMeans(es, ImageIn);
    FirstMeans(es, FailureIn);
    TrimmedAway(AllText(es));
    if FirstFailure(es).Some? {
      var k: nat :| FoundFirst(es, FailureIn, k) && FailureIn(es[k]) == FirstFailure(es);
      FailureIsFailed(es[k]);
    }
  }

  /** The words are those of the messages, in stream order. */
  lemma {:induction false} TextSplits(before: seq<Event>, after: seq<Event>)
    ensures AllText(before + after) == AllText(before) + AllText(after)
  {
    if after == [] {
      assert before + after == before;
    } else {
      assert (before + after)[..|before + after| - 1] == before + after[..|after| - 1];
      TextSplits(before, after[..|after| - 1]);
    }
  }

  lemma OneMessage(part: Option<string>, parts: seq<Option<string>>)
    ensures AllText([Message(parts)]) == Joined(parts)
    ensures Joined(parts + [part]) == Joined(parts) + if part.Some? then part.value else ""
  {
    assert [Message(parts)][..0] == [];
    assert (parts + [part])[..|parts|] == parts;
  }

  /** Event `k` ends the stream: no completion follows it. */
  predicate LastCompleted(es: seq<Event>, k: nat) {
    k < |es| && es[k].Completed? && forall j :: k < j < |es| ==> !es[j].Completed?
  }

  lemma {:induction false} LastUsageIs(es: seq<Event>)
    ensures forall k: nat :: LastCompleted(es, k) ==> LastUsage(es) == es[k].usage
    ensures (forall j :: 0 <= j < |es| ==> !es[j].Completed?) ==> LastUsage(es) == None
  {
    if es != [] && !es[|es| - 1].Completed? {
      var front := es[..|es| - 1];
      LastUsageIs(front);
      forall k: nat | LastCompleted(es, k) ensures LastUsage(es) == es[k].usage { assert LastCompleted(front, k); }
    }
  }

  /** The picture is the first one generated, with its own details, the words said
      beside it if there are any, and the usage of the last completion. */
  lemma {:induction false} ImageMeans(es: seq<Event>)
    requires OutcomeOf(es).Image?
    ensures var image := OutcomeOf(es).image;
      && (exists k: nat :: FoundFirst(es, ImageIn, k) && es[k].ImageCall? && !es[k].failed
            && es[k].result == Some(image.b64) && image.b64 != "" && image.details == es[k].details)
      && (image.text.None? <==> Blank(AllText(es)))
      && (forall k: nat :: LastCompleted(es, k) ==> image.usage == es[k].usage)
  {
    OutcomeMeans(es);
    FirstMeans(es, ImageIn);
    LastUsageIs(es);
    TrimmedAway(AllText(es));
    var k: nat :| FoundFirst(es, ImageIn, k) && ImageIn(es[k]) == FirstImage(es);
    assert es[k].ImageCall? && !es[k].failed;
  }

  /** A failure is told by the first event that failed: a failed call by a fixed code,
      an error by its code, else its type; its kind is what that code means. */
  lemma {:induction false} FailureMeans(es: seq<Event>)
    requires OutcomeOf(es).Failed?
    ensures exists k: nat :: FoundFirst(es, FailureIn, k) && Tells(es[k], OutcomeOf(es))
  {
    FirstMeans(es, FailureIn);
    var k: nat :| FoundFirst(es, FailureIn, k) && FailureIn(es[k]) == FirstFailure(es);
    assert Tells(es[k], OutcomeOf(es));
  }

  predicate Tells(e: Event, outcome: StreamOutcome)
    requires outcome.Failed?
  {
    if e.ImageCall? then e.failed && outcome.kind.Rejected? && outcome.code == "image_generation_failed"
    else
      && e.Error?
      && outcome.code == (if e.code.Some? then e.code.value else if e.errorType.Some? then e.errorType.value
                          else "upstream_error")
      && outcome.kind == KindOf(outcome.code, e.wait)
      && (e.message.Some? ==> outcome.message <= e.message.value)
      && |outcome.message| <= 500
  }

  method ParseStream(events: seq<Event>) returns (outcome: StreamOutcome)
    ensures outcome == OutcomeOf(events)
  {
    var image: Option<GeneratedImage> := None;
    var text: string := [];
    var completed := false;
    var usage: Option<string> := None;
    var failure: Option<StreamOutcome> := None;
    var i := 0;
    while i < |events|
      invariant i <= |events|
      invariant image == FirstImage(events[..i]) && failure == FirstFailure(events[..i])
      invariant text == AllText(events[..i]) && usage == LastUsage(events[..i])
      invariant completed <==> HasCompleted(events[..i])
    {
      assert events[..i + 1][..i] == events[..i];
      assert HasCompleted(events[..i + 1]) <==> HasCompleted(events[..i]) || events[i].Completed? by {
        forall k | 0 <= k < i ensures events[..i][k] == events[..i + 1][k] {}
        assert events[..i + 1][i] == events[i];
      }
      match events[i] {
        case ImageCall(failed, result, details) =>
          if failed {
            if failure.None? {
              failure := Some(Failed(Rejected, "image_generation_failed", "upstream image generation failed"));
            }
          } else if result.Some? && result.value != [] {
            if image.None? { image := Some(GeneratedImage(result.value, details, None, None)); }
          }
        case Message(parts) =>
          var more := Join(parts);
          text := text + more;
        case Completed(used) =>
          completed := true;
          usage := used;
        case Error(code, errorType, message, wait) =>
          if failure.None? { failure := FailureIn(events[i]); }
        case Ignored =>
      }
      i := i + 1;
    }
    assert events[..i] == events;
    text := Trim(text);
    if image.Some? { return Image(image.value.(text := if text != [] then Some(text) else None, usage := usage)); }
    if failure.Some? { return failure.value; }
    if !completed { return Incomplete; }
    if text == [] { return NoImage; }
    return Refused(text);
  }

  method Join(parts: seq<Option<string>>) returns (text: string)
    ensures text == Joined(parts)
  {
    text := [];
    for i := 0 to |parts|
      invariant text == Joined(parts[..i])
    {
      assert parts[..i + 1][..i] == parts[..i];
      if parts[i].Some? { text := text + parts[i].value; }
    }
    assert parts[..|parts|] == parts;
  }
}
