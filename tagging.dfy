/**
 * The processing loop of mp3_tagging.py: every key of the JSON mapping is
 * turned into a frame, except "CTOC", whose list of chapter descriptors
 * becomes one CHAP frame per descriptor and a CTOC frame listing them.
 *
 * The loop is specified by functions that follow it entry by entry (each
 * defined on a prefix, so that a loop's invariant can name "the run so far"),
 * and implemented by methods that add to a `TagContainer` as the script does.
 */
module Tagging {
  import opened Wrappers
  import opened PyStr
  import opened Values
  import opened Timestamp
  import opened FrameBuilder
  import opened Chapters
  import opened Container
  import opened Cli

  /**
   * The run so far: the frames added, how it ended, and the list the
   * module-level name `temp_sub_frames` is bound to (`None` while unbound).
   */
  datatype TagRun = TagRun(added: seq<Frame>, outcome: Outcome, tempSubFrames: Option<seq<PyValue>>)

  // ----- one chapter descriptor -----

  /**
   * `for sub_frame_information in chap["sub_frames"].items():
   *      temp_sub_frames.append(instantiate_tag(*sub_frame_information))`
   */
  function SubFrames(registry: Registry, items: seq<(string, PyValue)>): (r: Result<seq<PyValue>, Fault>)
    ensures r.Failure? <==> exists k :: 0 <= k < |items| && items[k].0 !in registry
    ensures r.Failure? ==> r.error == AttributeError
    ensures r.Success? ==> |r.value| == |items|
    ensures r.Success? ==>
      forall k :: 0 <= k < |items| ==> r.value[k] == ToPy(InstantiateTag(registry, items[k].0, items[k].1).value)
    decreases |items|
  {
    if items == [] then Success([])
    else
      var last := items[|items| - 1];
      var prev :- SubFrames(registry, items[..|items| - 1]);
      var f :- InstantiateTag(registry, last.0, last.1);
      Success(prev + [ToPy(f)])
  }

  /**
   * What `temp_sub_frames` is rebound to when a descriptor's sub-frames are
   * read: a fresh list when the descriptor has "sub_frames", `None` when it
   * has none and the name keeps its binding.
   */
  function DescriptorSubFrames(registry: Registry, chap: PyValue): (r: Result<Option<seq<PyValue>>, Fault>)
  {
    var has :- Contains(chap, "sub_frames");
    if !has then Success(None)
    else
      var value :- GetItem(chap, "sub_frames");
      var items :- Items(value);
      var subs :- SubFrames(registry, items);
      Success(Some(subs))
  }

  /** `convert_to_ms(chap[key])` */
  function TimeOf(chap: PyValue, key: string): (r: Result<int, Fault>)
  {
    var v :- GetItem(chap, key);
    ConvertToMs(v)
  }

  /**
   * What one descriptor gives on its own, before the name `temp_sub_frames`
   * is looked up: its sub-frames, its converted start and its converted end.
   * None of these depends on the descriptors before it, so the chapter loop
   * below is specified over the readings of all descriptors.
   */
  datatype Reading = Reading(subs: Result<Option<seq<PyValue>>, Fault>, start: Result<int, Fault>, end: Result<int, Fault>)

  function ReadDescriptor(registry: Registry, chap: PyValue): Reading {
    Reading(DescriptorSubFrames(registry, chap), TimeOf(chap, "start"), TimeOf(chap, "end"))
  }

  /** The readings of the descriptors, in order. */
  function Readings(registry: Registry, chaps: seq<PyValue>): (rs: seq<Reading>)
    ensures |rs| == |chaps|
    ensures forall k :: 0 <= k < |chaps| ==> rs[k] == ReadDescriptor(registry, chaps[k])
  {
    seq(|chaps|, k requires 0 <= k < |chaps| => ReadDescriptor(registry, chaps[k]))
  }

  /**
   * The CHAP frame for the descriptor read as `rd` at position `i`, and the
   * new binding of `temp_sub_frames`. The arguments are evaluated in the
   * script's order: sub-frames, start, end, and only then the name
   * `temp_sub_frames`, which raises `NameError` while unbound. The frame is
   * built exactly when all three can be read and the name is bound, and its
   * sub-frames are the list the name is then bound to.
   */
  function ChapterFrame(rd: Reading, i: nat, bound: Option<seq<PyValue>>)
    : (r: Result<(Frame, Option<seq<PyValue>>), Fault>)
    ensures r.Success? <==>
      rd.subs.Success? && rd.start.Success? && rd.end.Success? && (rd.subs.value.Some? || bound.Some?)
    ensures r.Success? ==>
      && r.value.0.Chap? && r.value.0.elementId == ChapterId(i)
      && r.value.0.startTime == rd.start.value && r.value.0.endTime == rd.end.value
      && r.value.1 == Some(r.value.0.subFrames)
      && r.value.1 == (if rd.subs.value.Some? then rd.subs.value else bound)
    ensures r.Failure? && rd.subs.Success? && rd.start.Success? && rd.end.Success? ==> r.error == NameError
  {
    var subs :- rd.subs;
    var start :- rd.start;
    var end :- rd.end;
    var current := if subs.Some? then subs else bound;
    if current.None? then Failure(NameError)
    else Success((Chap(ChapterId(i), start, end, current.value), current))
  }

  // ----- the "CTOC" key -----

  /** The CHAP frames for the descriptors read as `rs`, the first `|rs|` of the loop. */
  function ChapterRun(rs: seq<Reading>, bound: Option<seq<PyValue>>): (r: TagRun)
    ensures !r.outcome.AddedNone?
    ensures r.outcome.Completed? ==> |r.added| == |rs|
    ensures r.outcome.Raised? ==> |r.added| < |rs|
    ensures forall k :: 0 <= k < |r.added| ==> r.added[k].Chap?
    ensures r.outcome.Completed? && rs != [] ==> r.tempSubFrames == Some(r.added[|rs| - 1].subFrames)
    decreases |rs|
  {
    if rs == [] then TagRun([], Completed, bound)
    else
      var n := |rs| - 1;
      var prev := ChapterRun(rs[..n], bound);
      if !prev.outcome.Completed? then prev
      else
        match ChapterFrame(rs[n], n, prev.tempSubFrames)
        case Failure(e) => TagRun(prev.added, Raised(e), prev.tempSubFrames)
        case Success(built) => TagRun(prev.added + [built.0], Completed, built.1)
  }

  /**
   * The whole "CTOC" branch: a CHAP per descriptor, then the CTOC frame "toc"
   * listing "ch0" .. "ch{n-1}".
   */
  function CtocEntry(registry: Registry, value: PyValue, bound: Option<seq<PyValue>>): (r: TagRun)
    ensures r.outcome.Completed? ==>
      Iterate(value).Success? && |r.added| == |Iterate(value).value| + 1 &&
      r.added[|r.added| - 1] == TocFrame(|Iterate(value).value|)
  {
    match Iterate(value)
    case Failure(e) => TagRun([], Raised(e), bound)
    case Success(chaps) =>
      var r := ChapterRun(Readings(registry, chaps), bound);
      if r.outcome.Completed? then TagRun(r.added + [TocFrame(|chaps|)], Completed, r.tempSubFrames)
      else r
  }

  // ----- the loop over the mapping -----

  /** One key of the mapping: the chapter table, or one frame through `instantiate_tag`. */
  function EntryRun(registry: Registry, tag: string, value: PyValue, bound: Option<seq<PyValue>>): (r: TagRun)
    ensures tag != "CTOC" ==> |r.added| <= 1 && r.tempSubFrames == bound
    ensures tag != "CTOC" && r.outcome.Completed? ==>
      |r.added| == 1 && FrameId(r.added[0]) == tag && InstantiateTag(registry, tag, value) == Success(Some(r.added[0]))
    ensures tag != "CTOC" ==>
      var t := InstantiateTag(registry, tag, value);
      && (t.Failure? ==> r == TagRun([], Raised(t.error), bound))
      && (t == Success(None) ==> r == TagRun([], AddedNone, bound))
      && (t.Success? && t.value.Some? ==> r == TagRun([t.value.value], Completed, bound))
    ensures tag != "CTOC" && tag !in registry ==> r.outcome == Raised(AttributeError)
    ensures tag != "CTOC" && tag in registry && !value.Str? && !value.Dict? ==> r.added == [] && r.outcome == AddedNone
  {
    if tag == "CTOC" then CtocEntry(registry, value, bound)
    else
      match InstantiateTag(registry, tag, value)
      case Failure(e) => TagRun([], Raised(e), bound)
      case Success(None) => TagRun([], AddedNone, bound)
      case Success(Some(f)) => TagRun([f], Completed, bound)
  }

  /** The loop over the first `|entries|` entries of the mapping. */
  function TaggingRun(registry: Registry, entries: seq<(string, PyValue)>, bound: Option<seq<PyValue>>): (r: TagRun)
    decreases |entries|
  {
    if entries == [] then TagRun([], Completed, bound)
    else
      var n := |entries| - 1;
      var prev := TaggingRun(registry, entries[..n], bound);
      if !prev.outcome.Completed? then prev
      else
        var step := EntryRun(registry, entries[n].0, entries[n].1, prev.tempSubFrames);
        TagRun(prev.added + step.added, step.outcome, step.tempSubFrames)
  }

  /** `for tag, value in target.items(): ...`, `temp_sub_frames` starting unbound. */
  function ProcessingRun(registry: Registry, target: PyValue): (r: TagRun)
    ensures !target.Dict? ==> r == TagRun([], Raised(AttributeError), None)
  {
    match Items(target)
    case Failure(e) => TagRun([], Raised(e), None)
    case Success(entries) => TaggingRun(registry, entries, None)
  }


  // ----- once stopped, a run stays stopped -----

  lemma {:induction false} ChapterRunStopped(rs: seq<Reading>, j: nat, bound: Option<seq<PyValue>>)
    requires j <= |rs|
    requires !ChapterRun(rs[..j], bound).outcome.Completed?
    ensures ChapterRun(rs, bound) == ChapterRun(rs[..j], bound)
    decreases |rs| - j
  {
    if j < |rs| {
      var n := |rs| - 1;
      assert rs[..n][..j] == rs[..j];
      ChapterRunStopped(rs[..n], j, bound);
    } else {
      assert rs[..j] == rs;
    }
  }

  lemma {:induction false} TaggingRunStopped(registry: Registry, entries: seq<(string, PyValue)>, j: nat, bound: Option<seq<PyValue>>)
    requires j <= |entries|
    requires !TaggingRun(registry, entries[..j], bound).outcome.Completed?
    ensures TaggingRun(registry, entries, bound) == TaggingRun(registry, entries[..j], bound)
    decreases |entries| - j
  {
    if j < |entries| {
      var n := |entries| - 1;
      assert entries[..n][..j] == entries[..j];
      TaggingRunStopped(registry, entries[..n], j, bound);
    } else {
      assert entries[..j] == entries;
    }
  }

  /** One more descriptor: the run so far, then that descriptor's frame or fault. */
  lemma ChapterRunStep(rs: seq<Reading>, i: nat, bound: Option<seq<PyValue>>)
    requires i < |rs|
    requires ChapterRun(rs[..i], bound).outcome.Completed?
    ensures var prev := ChapterRun(rs[..i], bound);
      var c := ChapterFrame(rs[i], i, prev.tempSubFrames);
      ChapterRun(rs[..i + 1], bound) ==
        if c.Failure? then TagRun(prev.added, Raised(c.error), prev.tempSubFrames)
        else TagRun(prev.added + [c.value.0], Completed, c.value.1)
  {
    assert rs[..i + 1][..i] == rs[..i];
  }

  /**
   * Descriptor `i` after a completed prefix: its CHAP frame is added and the
   * run goes on, or its fault ends the whole run there.
   */
  lemma ChapterRunAdvance(rs: seq<Reading>, i: nat, bound: Option<seq<PyValue>>)
    requires i < |rs|
    requires ChapterRun(rs[..i], bound).outcome.Completed?
    ensures var prev := ChapterRun(rs[..i], bound);
      var c := ChapterFrame(rs[i], i, prev.tempSubFrames);
      && (c.Success? ==> ChapterRun(rs[..i + 1], bound) == TagRun(prev.added + [c.value.0], Completed, c.value.1))
      && (c.Failure? ==> ChapterRun(rs, bound) == TagRun(prev.added, Raised(c.error), prev.tempSubFrames))
  {
    ChapterRunStep(rs, i, bound);
    var prev := ChapterRun(rs[..i], bound);
    if ChapterFrame(rs[i], i, prev.tempSubFrames).Failure? {
      ChapterRunStopped(rs, i + 1, bound);
    }
  }

  /** One more entry of the mapping: the run so far, then that entry's run. */
  lemma TaggingRunStep(registry: Registry, entries: seq<(string, PyValue)>, i: nat, bound: Option<seq<PyValue>>)
    requires i < |entries|
    requires TaggingRun(registry, entries[..i], bound).outcome.Completed?
    ensures var prev := TaggingRun(registry, entries[..i], bound);
      var step := EntryRun(registry, entries[i].0, entries[i].1, prev.tempSubFrames);
      TaggingRun(registry, entries[..i + 1], bound) == TagRun(prev.added + step.added, step.outcome, step.tempSubFrames)
  {
    assert entries[..i + 1][..i] == entries[..i];
  }

  /** The `k`-th CHAP frame of the run, whether or not it completed, has the id "ch{k}". */
  lemma {:induction false} ChapterRunIds(rs: seq<Reading>, bound: Option<seq<PyValue>>)
    ensures var r := ChapterRun(rs, bound);
      forall k :: 0 <= k < |r.added| ==> r.added[k].elementId == ChapterId(k)
    decreases |rs|
  {
    if rs != [] {
      ChapterRunIds(rs[..|rs| - 1], bound);
    }
  }

  /** A completed run went through every shorter prefix. */
  lemma ChapterRunPrefixCompleted(rs: seq<Reading>, j: nat, bound: Option<seq<PyValue>>)
    requires j <= |rs|
    requires ChapterRun(rs, bound).outcome.Completed?
    ensures ChapterRun(rs[..j], bound).outcome.Completed?
  {
    if !ChapterRun(rs[..j], bound).outcome.Completed? {
      ChapterRunStopped(rs, j, bound);
    }
  }

  /** A completed run went through every shorter prefix, adding their frames first. */
  lemma {:induction false} ChapterRunPrefix(rs: seq<Reading>, j: nat, bound: Option<seq<PyValue>>)
    requires j <= |rs|
    requires ChapterRun(rs, bound).outcome.Completed?
    ensures ChapterRun(rs[..j], bound).outcome.Completed?
    ensures ChapterRun(rs[..j], bound).added == ChapterRun(rs, bound).added[..j]
    decreases |rs| - j
  {
    ChapterRunPrefixCompleted(rs, j, bound);
    if j == |rs| {
      assert rs[..j] == rs;
    } else {
      var n := |rs| - 1;
      ChapterRunFront(rs, bound);
      assert rs[..n][..j] == rs[..j];
      ChapterRunPrefix(rs[..n], j, bound);
      SlicePrefix(ChapterRun(rs, bound).added, ChapterRun(rs[..n], bound).added, ChapterRun(rs[..j], bound).added, j);
    }
  }

  /** A completed run is the completed run on all but the last descriptor, plus one frame. */
  lemma ChapterRunFront(rs: seq<Reading>, bound: Option<seq<PyValue>>)
    requires rs != []
    requires ChapterRun(rs, bound).outcome.Completed?
    ensures var prev := ChapterRun(rs[..|rs| - 1], bound);
      && prev.outcome.Completed?
      && ChapterRun(rs, bound).added[..|rs| - 1] == prev.added
  {
  }

  /**
   * Descriptor `k` of a completed run gave the `k`-th frame: its CHAP frame
   * built with `temp_sub_frames` as the first `k` descriptors left it.
   */
  lemma ChapterRunFrame(rs: seq<Reading>, k: nat, bound: Option<seq<PyValue>>)
    requires k < |rs|
    requires ChapterRun(rs, bound).outcome.Completed?
    ensures var before := ChapterRun(rs[..k], bound).tempSubFrames;
      ChapterFrame(rs[k], k, before) == Success((ChapterRun(rs, bound).added[k], ChapterRun(rs[..k + 1], bound).tempSubFrames))
  {
    ChapterRunPrefix(rs, k, bound);
    ChapterRunPrefix(rs, k + 1, bound);
    ChapterRunStep(rs, k, bound);
  }

  /**
   * A run that raised stopped at the first descriptor whose CHAP frame could
   * not be built, with every descriptor before it added.
   */
  lemma {:induction false} ChapterRunRaised(rs: seq<Reading>, bound: Option<seq<PyValue>>)
    requires ChapterRun(rs, bound).outcome.Raised?
    ensures var r := ChapterRun(rs, bound);
      var k := |r.added|;
      && ChapterRun(rs[..k], bound) == TagRun(r.added, Completed, r.tempSubFrames)
      && ChapterFrame(rs[k], k, r.tempSubFrames) == Failure(r.outcome.fault)
    decreases |rs|
  {
    var n := |rs| - 1;
    var prev := ChapterRun(rs[..n], bound);
    if prev.outcome.Completed? {
      assert |prev.added| == n;
      assert rs[..n] == rs[..|ChapterRun(rs, bound).added|];
    } else {
      ChapterRunRaised(rs[..n], bound);
      var k := |prev.added|;
      assert rs[..n][..k] == rs[..k];
    }
  }

  /** A reading from which a CHAP frame is built whatever `temp_sub_frames` is bound to. */
  predicate Complete(rd: Reading) {
    rd.subs.Success? && rd.subs.value.Some? && rd.start.Success? && rd.end.Success?
  }

  /** The CHAP frame a complete reading gives at position `i`. */
  function ReadingChapter(rd: Reading, i: nat): Frame
    requires Complete(rd)
  {
    Chap(ChapterId(i), rd.start.value, rd.end.value, rd.subs.value.value)
  }

  /** Descriptors that each read completely never stop the loop. */
  lemma {:induction false} CompleteRunCompletes(rs: seq<Reading>, bound: Option<seq<PyValue>>)
    requires forall k :: 0 <= k < |rs| ==> Complete(rs[k])
    ensures ChapterRun(rs, bound).outcome.Completed?
    decreases |rs|
  {
    if rs != [] {
      var n := |rs| - 1;
      var front := rs[..n];
      assert forall k :: 0 <= k < n ==> front[k] == rs[k];
      CompleteRunCompletes(front, bound);
      ChapterRunStep(rs, n, bound);
      assert rs[..n + 1] == rs;
    }
  }

  /**
   * Descriptors that each read completely all become CHAP frames, in order,
   * each built from its own reading alone.
   */
  lemma CompleteRun(rs: seq<Reading>, bound: Option<seq<PyValue>>)
    requires forall k :: 0 <= k < |rs| ==> Complete(rs[k])
    ensures ChapterRun(rs, bound).outcome.Completed?
    ensures forall k :: 0 <= k < |rs| ==> ChapterRun(rs, bound).added[k] == ReadingChapter(rs[k], k)
  {
    CompleteRunCompletes(rs, bound);
    forall k | 0 <= k < |rs| ensures ChapterRun(rs, bound).added[k] == ReadingChapter(rs[k], k) {
      ChapterRunFrame(rs, k, bound);
    }
  }

  /** A descriptor that can be turned into a CHAP frame on its own. */
  predicate WellFormedDescriptor(registry: Registry, chap: PyValue) {
    && chap.Dict?
    && Lookup(chap.entries, "sub_frames").Some?
    && Lookup(chap.entries, "sub_frames").value.Dict?
    && (forall e :: e in Lookup(chap.entries, "sub_frames").value.entries ==> e.0 in registry)
    && TimeOf(chap, "start").Success?
    && TimeOf(chap, "end").Success?
  }

  /** The sub-frames a well-formed descriptor lists, instantiated in order. */
  function DescriptorFrames(registry: Registry, chap: PyValue): (subs: seq<PyValue>)
    requires WellFormedDescriptor(registry, chap)
    ensures var items := Lookup(chap.entries, "sub_frames").value.entries;
      |subs| == |items| &&
      forall k :: 0 <= k < |items| ==> subs[k] == ToPy(InstantiateTag(registry, items[k].0, items[k].1).value)
  {
    var items := Lookup(chap.entries, "sub_frames").value.entries;
    assert forall k :: 0 <= k < |items| ==> items[k] in items;
    SubFrames(registry, items).value
  }

  /** The CHAP frame descriptor `chap` gives at position `i`. */
  function DescriptorChapter(registry: Registry, chap: PyValue, i: nat): (f: Frame)
    requires WellFormedDescriptor(registry, chap)
    ensures f.Chap? && f.elementId == ChapterId(i)
    ensures f.startTime == ConvertToMs(Lookup(chap.entries, "start").value).value
    ensures f.endTime == ConvertToMs(Lookup(chap.entries, "end").value).value
    ensures f.subFrames == DescriptorFrames(registry, chap)
  {
    Chap(ChapterId(i), TimeOf(chap, "start").value, TimeOf(chap, "end").value, DescriptorFrames(registry, chap))
  }

  /** A well-formed descriptor reads completely: its instantiated sub-frames and both times. */
  lemma WellFormedReading(registry: Registry, chap: PyValue)
    requires WellFormedDescriptor(registry, chap)
    ensures ReadDescriptor(registry, chap) ==
      Reading(Success(Some(DescriptorFrames(registry, chap))), TimeOf(chap, "start"), TimeOf(chap, "end"))
  {
    var items := Lookup(chap.entries, "sub_frames").value.entries;
    assert forall k :: 0 <= k < |items| ==> items[k] in items;
  }

  /**
   * The chapter table for `n` well-formed descriptors: exactly `n` CHAP
   * frames "ch0" .. "ch{n-1}" in input order, each with its descriptor's
   * converted start and end and its instantiated sub-frames, then exactly one
   * CTOC frame "toc", top-level and ordered, listing them in that order.
   */
  lemma ChapterTable(registry: Registry, chaps: seq<PyValue>, bound: Option<seq<PyValue>>)
    requires forall k :: 0 <= k < |chaps| ==> WellFormedDescriptor(registry, chaps[k])
    ensures var r := CtocEntry(registry, List(chaps), bound);
      && r.outcome == Completed
      && |r.added| == |chaps| + 1
      && (forall k :: 0 <= k < |chaps| ==> r.added[k] == DescriptorChapter(registry, chaps[k], k))
      && r.added[|chaps|] == Ctoc("toc", TopLevel | Ordered, ChapterIds(|chaps|))
  {
    var rs := Readings(registry, chaps);
    forall k | 0 <= k < |chaps| ensures Complete(rs[k]) {
      WellFormedReading(registry, chaps[k]);
    }
    CompleteRun(rs, bound);
    forall k | 0 <= k < |chaps| ensures ChapterRun(rs, bound).added[k] == DescriptorChapter(registry, chaps[k], k) {
      WellFormedReading(registry, chaps[k]);
    }
  }

  /**
   * A descriptor without "sub_frames" reuses the list `temp_sub_frames` was
   * bound to by an earlier descriptor: its CHAP frame gets the sub-frames of
   * the chapter before it.
   */
  lemma SubFramesCarriedOver(registry: Registry, chaps: seq<PyValue>, k: nat, bound: Option<seq<PyValue>>)
    requires 0 < k < |chaps|
    requires Contains(chaps[k], "sub_frames") == Success(false)
    requires CtocEntry(registry, List(chaps), bound).outcome.Completed?
    ensures var r := CtocEntry(registry, List(chaps), bound);
      r.added[k].subFrames == r.added[k - 1].subFrames
  {
    var rs := Readings(registry, chaps);
    assert rs[k].subs == Success(None);
    ChapterRunCarriesOver(rs, k, bound);
  }

  lemma ChapterRunCarriesOver(rs: seq<Reading>, k: nat, bound: Option<seq<PyValue>>)
    requires 0 < k < |rs|
    requires rs[k].subs == Success(None)
    requires ChapterRun(rs, bound).outcome.Completed?
    ensures ChapterRun(rs, bound).added[k].subFrames == ChapterRun(rs, bound).added[k - 1].subFrames
  {
    ChapterRunFrame(rs, k, bound);
    ChapterRunPrefix(rs, k, bound);
    assert rs[..k] != [];
  }

  /**
   * With `temp_sub_frames` still unbound, a first descriptor without
   * "sub_frames" whose times convert raises `NameError`, and no frame of
   * the chapter table is added.
   */
  lemma UnboundSubFrames(registry: Registry, chaps: seq<PyValue>)
    requires chaps != [] && Contains(chaps[0], "sub_frames") == Success(false)
    requires TimeOf(chaps[0], "start").Success? && TimeOf(chaps[0], "end").Success?
    ensures CtocEntry(registry, List(chaps), None) == TagRun([], Raised(NameError), None)
  {
    var rs := Readings(registry, chaps);
    assert rs[0] == Reading(Success(None), TimeOf(chaps[0], "start"), TimeOf(chaps[0], "end"));
    assert rs[..1][..0] == [];
    ChapterRunStopped(rs, 1, None);
  }

  lemma TaggingRunFront(registry: Registry, entries: seq<(string, PyValue)>, bound: Option<seq<PyValue>>)
    requires entries != []
    requires TaggingRun(registry, entries, bound).outcome.Completed?
    ensures var n := |entries| - 1;
      var prev := TaggingRun(registry, entries[..n], bound);
      prev.outcome.Completed? && EntryRun(registry, entries[n].0, entries[n].1, prev.tempSubFrames).outcome.Completed?
  {
  }

  lemma LastEntryCompleted(registry: Registry, tag: string, value: PyValue, bound: Option<seq<PyValue>>)
    requires EntryRun(registry, tag, value, bound).outcome.Completed?
    ensures tag != "CTOC" ==> tag in registry && InstantiateTag(registry, tag, value).value.Some?
  {
  }

  /** A completed run went through every shorter prefix of the mapping, adding their frames first. */
  lemma {:induction false} TaggingRunPrefix(registry: Registry, entries: seq<(string, PyValue)>, j: nat, bound: Option<seq<PyValue>>)
    requires j <= |entries|
    requires TaggingRun(registry, entries, bound).outcome.Completed?
    ensures TaggingRun(registry, entries[..j], bound).outcome.Completed?
    decreases |entries| - j
  {
    if j == |entries| {
      assert entries[..j] == entries;
    } else {
      var n := |entries| - 1;
      TaggingRunFront(registry, entries, bound);
      assert entries[..n][..j] == entries[..j];
      TaggingRunPrefix(registry, entries[..n], j, bound);
    }
  }

  /**
   * A run only completes when every key other than "CTOC" names a frame
   * class and builds a frame from its value: an unknown key is not skipped.
   */
  lemma TaggingCompleted(registry: Registry, entries: seq<(string, PyValue)>, bound: Option<seq<PyValue>>)
    requires TaggingRun(registry, entries, bound).outcome.Completed?
    ensures forall k :: 0 <= k < |entries| && entries[k].0 != "CTOC" ==>
      entries[k].0 in registry && InstantiateTag(registry, entries[k].0, entries[k].1).value.Some?
  {
    forall k | 0 <= k < |entries| && entries[k].0 != "CTOC"
      ensures entries[k].0 in registry && InstantiateTag(registry, entries[k].0, entries[k].1).value.Some?
    {
      TaggingRunPrefix(registry, entries, k + 1, bound);
      TaggingRunFront(registry, entries[..k + 1], bound);
      assert entries[..k + 1][k] == entries[k];
      assert entries[..k + 1][..k] == entries[..k];
      LastEntryCompleted(registry, entries[k].0, entries[k].1, TaggingRun(registry, entries[..k], bound).tempSubFrames);
    }
  }

  /**
   * The converse of `TaggingCompleted`: a mapping without "CTOC" whose every
   * key builds a frame completes, adding exactly those frames in order.
   */
  lemma {:induction false} TaggingBuildsAll(registry: Registry, entries: seq<(string, PyValue)>, bound: Option<seq<PyValue>>)
    requires forall k :: 0 <= k < |entries| ==>
      entries[k].0 != "CTOC" && InstantiateTag(registry, entries[k].0, entries[k].1).Success? &&
      InstantiateTag(registry, entries[k].0, entries[k].1).value.Some?
    ensures var r := TaggingRun(registry, entries, bound);
      && r.outcome.Completed? && r.tempSubFrames == bound && |r.added| == |entries|
      && forall k :: 0 <= k < |entries| ==> r.added[k] == InstantiateTag(registry, entries[k].0, entries[k].1).value.value
    decreases |entries|
  {
    if entries != [] {
      var n := |entries| - 1;
      TaggingBuildsAll(registry, entries[..n], bound);
      var prev := TaggingRun(registry, entries[..n], bound);
      var f := InstantiateTag(registry, entries[n].0, entries[n].1).value.value;
      assert EntryRun(registry, entries[n].0, entries[n].1, bound) == TagRun([f], Completed, bound);
      assert TaggingRun(registry, entries, bound) == TagRun(prev.added + [f], Completed, bound);
    }
  }

  lemma SlicePrefix(all: seq<Frame>, front: seq<Frame>, part: seq<Frame>, j: nat)
    requires |front| <= |all| && all[..|front|] == front
    requires j <= |front| && part == front[..j]
    ensures part == all[..j]
  {
  }

  lemma AppendAssoc(a: seq<Frame>, b: seq<Frame>, c: seq<Frame>)
    ensures a + (b + c) == (a + b) + c
  {
  }

  // ----- the loops as the script runs them -----

  /** mp3_tagging.py, lines 136-138: the fresh `temp_sub_frames` list, appended to entry by entry. */
  method CollectSubFrames(registry: Registry, items: seq<(string, PyValue)>) returns (r: Result<seq<PyValue>, Fault>)
    ensures r == SubFrames(registry, items)
  {
    var temp: seq<PyValue> := [];
    for i := 0 to |items|
      invariant SubFrames(registry, items[..i]) == Success(temp)
    {
      assert items[..i + 1][..i] == items[..i];
      var f := InstantiateTag(registry, items[i].0, items[i].1);
      if f.Failure? {
        assert items[i].0 !in registry;
        return Failure(f.error);
      }
      temp := temp + [ToPy(f.value)];
    }
    assert items[..|items|] == items;
    return Success(temp);
  }

  /** mp3_tagging.py, lines 135-138: the descriptor's fresh sub-frame list, when it has "sub_frames". */
  method ReadSubFrames(registry: Registry, chap: PyValue) returns (r: Result<Option<seq<PyValue>>, Fault>)
    ensures r == DescriptorSubFrames(registry, chap)
  {
    var has := Contains(chap, "sub_frames");
    if has.Failure? {
      return Failure(has.error);
    }
    if !has.value {
      return Success(None);
    }
    var value := GetItem(chap, "sub_frames");
    if value.Failure? {
      return Failure(value.error);
    }
    var items := Items(value.value);
    if items.Failure? {
      return Failure(items.error);
    }
    var subs := CollectSubFrames(registry, items.value);
    if subs.Failure? {
      return Failure(subs.error);
    }
    return Success(Some(subs.value));
  }

  /**
   * mp3_tagging.py, lines 135-140, one pass of the chapter loop: the descriptor's sub-frames
   * are read, start and end converted, the name `temp_sub_frames` looked up,
   * and the CHAP frame added.
   */
  method AddChapter(tags: TagContainer, registry: Registry, chap: PyValue, i: nat, bound0: Option<seq<PyValue>>)
    returns (outcome: Outcome, bound: Option<seq<PyValue>>)
    modifies tags
    ensures var c := ChapterFrame(ReadDescriptor(registry, chap), i, bound0);
      if c.Success?
      then outcome == Completed && tags.frames == old(tags.frames) + [c.value.0] && bound == c.value.1
      else outcome == Raised(c.error) && tags.frames == old(tags.frames) && bound == bound0
  {
    bound := bound0;
    var subs := ReadSubFrames(registry, chap);
    if subs.Failure? {
      return Raised(subs.error), bound;
    }
    var start := TimeOf(chap, "start");
    if start.Failure? {
      return Raised(start.error), bound;
    }
    var end := TimeOf(chap, "end");
    if end.Failure? {
      return Raised(end.error), bound;
    }
    var current := if subs.value.Some? then subs.value else bound;
    if current.None? {
      return Raised(NameError), bound;
    }
    tags.Add(Chap(ChapterId(i), start.value, end.value, current.value));
    return Completed, current;
  }

  /**
   * mp3_tagging.py, lines 132-141: the loop over the descriptors, with the counter `i` and the
   * growing `child_element_ids`.
   */
  method AddChapterFrames(tags: TagContainer, registry: Registry, chaps: seq<PyValue>, bound0: Option<seq<PyValue>>)
    returns (outcome: Outcome, bound: Option<seq<PyValue>>, childElementIds: seq<string>)
    modifies tags
    ensures tags.frames == old(tags.frames) + ChapterRun(Readings(registry, chaps), bound0).added
    ensures outcome == ChapterRun(Readings(registry, chaps), bound0).outcome
    ensures bound == ChapterRun(Readings(registry, chaps), bound0).tempSubFrames
    ensures outcome.Completed? ==> childElementIds == ChapterIds(|chaps|)
  {
    ghost var rs := Readings(registry, chaps);
    var i := 0;
    childElementIds := [];
    bound := bound0;
    while i < |chaps|
      invariant 0 <= i <= |chaps|
      invariant ChapterRun(rs[..i], bound0).outcome == Completed
      invariant tags.frames == old(tags.frames) + ChapterRun(rs[..i], bound0).added
      invariant bound == ChapterRun(rs[..i], bound0).tempSubFrames
      invariant |childElementIds| == i
      invariant forall k :: 0 <= k < i ==> childElementIds[k] == ChapterId(k)
    {
      ChapterRunAdvance(rs, i, bound0);
      ghost var prev := ChapterRun(rs[..i], bound0).added;
      ghost var before := tags.frames;
      var o, b := AddChapter(tags, registry, chaps[i], i, bound);
      if !o.Completed? {
        return o, bound, childElementIds;
      }
      AppendAssoc(old(tags.frames), prev, tags.frames[|before|..]);
      childElementIds := childElementIds + [ChapterId(i)];
      bound := b;
      i := i + 1;
    }
    assert rs[..i] == rs;
    ChapterIdsListed(childElementIds);
    outcome := Completed;
  }

  /** mp3_tagging.py, lines 132-142: the chapter frames, then the CTOC frame listing them. */
  method AddChapters(tags: TagContainer, registry: Registry, value: PyValue, bound0: Option<seq<PyValue>>)
    returns (outcome: Outcome, bound: Option<seq<PyValue>>)
    modifies tags
    ensures tags.frames == old(tags.frames) + CtocEntry(registry, value, bound0).added
    ensures outcome == CtocEntry(registry, value, bound0).outcome
    ensures bound == CtocEntry(registry, value, bound0).tempSubFrames
  {
    var chaps := Iterate(value);
    if chaps.Failure? {
      return Raised(chaps.error), bound0;
    }
    var childElementIds;
    outcome, bound, childElementIds := AddChapterFrames(tags, registry, chaps.value, bound0);
    if outcome.Completed? {
      ghost var added := tags.frames[|old(tags.frames)|..];
      AppendAssoc(old(tags.frames), added, [TocFrame(|chaps.value|)]);
      tags.Add(Ctoc(TocId, TopLevel | Ordered, childElementIds));
    }
  }

  /** mp3_tagging.py, lines 131-144: one entry of the mapping. */
  method AddEntry(tags: TagContainer, registry: Registry, tag: string, value: PyValue, bound0: Option<seq<PyValue>>)
    returns (outcome: Outcome, bound: Option<seq<PyValue>>)
    modifies tags
    ensures tags.frames == old(tags.frames) + EntryRun(registry, tag, value, bound0).added
    ensures outcome == EntryRun(registry, tag, value, bound0).outcome
    ensures bound == EntryRun(registry, tag, value, bound0).tempSubFrames
  {
    if tag == "CTOC" {
      outcome, bound := AddChapters(tags, registry, value, bound0);
    } else {
      bound := bound0;
      var f := InstantiateTag(registry, tag, value);
      if f.Failure? {
        outcome := Raised(f.error);
      } else if f.value.None? {
        outcome := AddedNone;
      } else {
        tags.Add(f.value.value);
        outcome := Completed;
      }
    }
  }

  /** mp3_tagging.py, lines 130-144: the loop over the mapping, adding to `tags`. */
  method ProcessTagging(tags: TagContainer, registry: Registry, target: PyValue) returns (outcome: Outcome)
    modifies tags
    ensures tags.frames == old(tags.frames) + ProcessingRun(registry, target).added
    ensures outcome == ProcessingRun(registry, target).outcome
  {
    var entries := Items(target);
    if entries.Failure? {
      return Raised(entries.error);
    }
    var bound: Option<seq<PyValue>> := None;
    for i := 0 to |entries.value|
      invariant TaggingRun(registry, entries.value[..i], None).outcome == Completed
      invariant tags.frames == old(tags.frames) + TaggingRun(registry, entries.value[..i], None).added
      invariant bound == TaggingRun(registry, entries.value[..i], None).tempSubFrames
    {
      TaggingRunStep(registry, entries.value, i, None);
      ghost var prev := TaggingRun(registry, entries.value[..i], None).added;
      ghost var before := tags.frames;
      outcome, bound := AddEntry(tags, registry, entries.value[i].0, entries.value[i].1, bound);
      AppendAssoc(old(tags.frames), prev, tags.frames[|before|..]);
      if !outcome.Completed? {
        TaggingRunStopped(registry, entries.value, i + 1, None);
        return;
      }
    }
    assert entries.value[..|entries.value|] == entries.value;
    outcome := Completed;
  }

  /**
   * The whole script on already decoded input: the extension checks, the MP3
   * file's tag cleared, the processing loop, and what is saved where. The
   * frames saved are the run's alone -- whatever the file held before is gone.
   */
  method TagFile(registry: Registry, mp3file: string, jsonfile: string, n: bool, load: LoadOutcome, target: PyValue)
    returns (saved: Option<(string, seq<Frame>)>)
    ensures saved.Some? <==>
      CheckPaths(mp3file, jsonfile).None? && (load.Loaded? || load.NoHeader?) &&
      ProcessingRun(registry, target).outcome.Completed?
    ensures saved.Some? ==> saved.value == (SavePath(mp3file, n), ProcessingRun(registry, target).added)
  {
    if CheckPaths(mp3file, jsonfile).Some? {
      return None;
    }
    var tags := OpenCleared(load);
    if tags.None? {
      return None;
    }
    var outcome := ProcessTagging(tags.value, registry, target);
    if !outcome.Completed? {
      return None;
    }
    assert tags.value.frames == ProcessingRun(registry, target).added;
    return Some((SavePath(mp3file, n), tags.value.frames));
  }
}
