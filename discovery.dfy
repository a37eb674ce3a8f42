/**
  Caller discovery: walking the call stack outward, past the frames of the
  timing framework itself, to the first frame that belongs to the application.
  The live stack is given as a sequence of frames, innermost first.
 */
module Discovery {
  import opened Wrappers
  import opened Prefixes

  /** The module the discoverer lives in, and the two other default ignores. */
  const ThisModule := "app.commons.timing.database"
  const TracingModule := "app.commons.tracing"
  const ContextlibModule := "contextlib"

  /** The name used for a frame without a module name, and for running off the root. */
  const Unknown := "?"

  /** One frame: the `__name__` entry of its globals (None if there is none) and its code's `co_name`. */
  datatype Frame = Frame(globalName: Option<string>, functionName: string)

  /** `f.f_globals.get("__name__") or "?"`: a missing or empty module name reads as "?". */
  function FrameName(f: Frame): (name: string)
    ensures name != ""
    ensures name == Unknown || f.globalName == Some(name)
    ensures (f.globalName.None? || f.globalName == Some("")) ==> name == Unknown
  {
    if f.globalName.Some? && f.globalName.value != "" then f.globalName.value else Unknown
  }

  /** The three default prefixes followed by the caller's extra ones (`additional_ignores or []`). */
  function IgnoreList(additional: Option<seq<string>>): (ignores: seq<string>)
    ensures |ignores| >= 3
    ensures ignores[0] == ThisModule && ignores[1] == TracingModule && ignores[2] == ContextlibModule
    ensures additional.Some? ==> ignores[3..] == additional.value
    ensures additional.None? ==> |ignores| == 3
  {
    [ThisModule, TracingModule, ContextlibModule] + (if additional.Some? then additional.value else [])
  }

  predicate Ignored(name: string, ignores: seq<string>) {
    StartsWithAny(name, ignores)
  }

  /**
    The walk's answer from frame `from`, stated outright: `frame` is where it
    stops and `name` what it reports. Every frame before `frame` is ignored, and
    `frame` is the first unignored one, or the root with "?" when the root is
    ignored too.
   */
  predicate Answer(stack: seq<Frame>, ignores: seq<string>, from: nat, frame: nat, name: string) {
    && from <= frame < |stack|
    && (forall j :: from <= j < frame ==> Ignored(FrameName(stack[j]), ignores))
    && (|| (!Ignored(FrameName(stack[frame]), ignores) && name == FrameName(stack[frame]))
        || (frame == |stack| - 1 && Ignored(FrameName(stack[frame]), ignores) && name == Unknown))
  }

  /**
    What the walk returns when it starts at frame `from`: the index of the frame
    it stops at and the module name it reports.
   */
  function Discover(stack: seq<Frame>, ignores: seq<string>, from: nat): (r: (nat, string))
    requires from < |stack|
    ensures Answer(stack, ignores, from, r.0, r.1)
    decreases |stack| - from
  {
    var name := FrameName(stack[from]);
    if !Ignored(name, ignores) then (from, name)
    else if from == |stack| - 1 then (from, Unknown)
    else Discover(stack, ignores, from + 1)
  }

  /** There is only one such answer, and `Discover` computes it. */
  lemma {:induction false} AnswerIsDiscover(stack: seq<Frame>, ignores: seq<string>, from: nat, frame: nat, name: string)
    requires Answer(stack, ignores, from, frame, name)
    ensures Discover(stack, ignores, from) == (frame, name)
    decreases |stack| - from
  {
    if from < frame {
      AnswerIsDiscover(stack, ignores, from + 1, frame, name);
    }
  }

  /**
    `_discover_caller`: the returned frame is the first one, scanning outward,
    whose module name starts with none of the ignore prefixes; every frame
    skipped before it is ignored; if the root is reached while the name is
    still ignored, the root frame is returned with the name "?".
   */
  method DiscoverCaller(stack: seq<Frame>, additionalIgnores: Option<seq<string>>) returns (frame: nat, name: string)
    requires |stack| > 0
    ensures Answer(stack, IgnoreList(additionalIgnores), 0, frame, name)
  {
    var ignores := IgnoreList(additionalIgnores);
    frame := 0;
    name := FrameName(stack[frame]);
    while StartsWithAny(name, ignores)
      invariant frame < |stack|
      invariant name == FrameName(stack[frame])
      invariant forall j :: 0 <= j < frame ==> Ignored(FrameName(stack[j]), ignores)
      decreases |stack| - frame
    {
      if frame == |stack| - 1 {
        name := Unknown;
        break;
      }
      frame := frame + 1;
      name := FrameName(stack[frame]);
    }
  }

  /** Frames of this module, of the tracing module and of contextlib are skipped whatever the extra ignores. */
  lemma DefaultsAlwaysIgnored(name: string, additional: Option<seq<string>>)
    requires StartsWith(name, ThisModule) || StartsWith(name, TracingModule) || StartsWith(name, ContextlibModule)
    ensures Ignored(name, IgnoreList(additional))
  {
    var ignores := IgnoreList(additional);
    if StartsWith(name, ThisModule) {
      assert StartsWith(name, ignores[0]);
    } else if StartsWith(name, TracingModule) {
      assert StartsWith(name, ignores[1]);
    } else {
      assert StartsWith(name, ignores[2]);
    }
  }

  /** The extra prefixes are honoured as well. */
  lemma AdditionalIgnored(name: string, additional: seq<string>, k: nat)
    requires k < |additional| && StartsWith(name, additional[k])
    ensures Ignored(name, IgnoreList(Some(additional)))
  {
    assert IgnoreList(Some(additional))[3 + k] == additional[k];
  }

  /**
    The walk never looks past the frame it returns: once it has found an
    application frame, adding outer frames does not change the result.
   */
  lemma {:induction false} OuterFramesIrrelevant(stack: seq<Frame>, outer: seq<Frame>, ignores: seq<string>, from: nat)
    requires from < |stack|
    requires !Ignored(FrameName(stack[Discover(stack, ignores, from).0]), ignores)
    ensures Discover(stack + outer, ignores, from) == Discover(stack, ignores, from)
    decreases |stack| - from
  {
    assert (stack + outer)[from] == stack[from];
    if Ignored(FrameName(stack[from]), ignores) {
      OuterFramesIrrelevant(stack, outer, ignores, from + 1);
    }
  }

  /** "?" is reported only for a frame without a module name, or at the root when every frame is ignored. */
  lemma UnknownOnlyWhenNamelessOrExhausted(stack: seq<Frame>, ignores: seq<string>)
    requires |stack| > 0
    ensures var r := Discover(stack, ignores, 0);
      r.1 == Unknown ==>
        || FrameName(stack[r.0]) == Unknown
        || (r.0 == |stack| - 1 && forall j :: 0 <= j < |stack| ==> Ignored(FrameName(stack[j]), ignores))
  {
  }

  /** When every frame is ignored the walk stops at the root and reports "?". */
  lemma AllIgnoredReachesRoot(stack: seq<Frame>, ignores: seq<string>)
    requires |stack| > 0
    requires forall j :: 0 <= j < |stack| ==> Ignored(FrameName(stack[j]), ignores)
    ensures Discover(stack, ignores, 0) == (|stack| - 1, Unknown)
  {
  }
}
