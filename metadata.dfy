/**
 * The processing loop of mp3_metadata.py: only keys on the allow-list are
 * processed, any other key is reported and skipped; a "CTOC" key rewrites
 * each descriptor's "sub_frames" dict in place and adds a CHAP frame with
 * zero times and no sub-frames per descriptor, then the CTOC frame.
 */
module Metadata {
  import opened Wrappers
  import opened PyStr
  import opened Values
  import opened FrameBuilder
  import opened Chapters
  import opened Container
  import opened Cli
  import Tagging

  /** The keys of the `frames` dict: the frame ids this script processes. */
  const AllowList: set<string> :=
    {"TIT2", "TALB", "TPE1", "TPE2", "COMM", "CTOC", "TCOM", "TCON", "TDRC", "TRCK"}

  /** The run so far: the frames added, how it ended, and the keys reported as not recognized. */
  datatype MetaRun = MetaRun(added: seq<Frame>, outcome: Outcome, skipped: seq<string>)

  // ----- the in-place rewrite of a "sub_frames" dict -----

  /** The position of `key` in the dict. */
  function IndexOf(entries: seq<(string, PyValue)>, key: string): (i: nat)
    requires HasKey(entries, key)
    ensures i < |entries| && entries[i].0 == key
    ensures forall j :: 0 <= j < i ==> entries[j].0 != key
    decreases |entries|
  {
    if entries[0].0 == key then 0
    else
      assert Keys(entries) == [entries[0].0] + Keys(entries[1..]);
      1 + IndexOf(entries[1..], key)
  }

  /** `d[key] = v`: an existing key keeps its place, a new key goes to the end. */
  function SetItem(entries: seq<(string, PyValue)>, key: string, v: PyValue): (r: seq<(string, PyValue)>)
    ensures HasKey(entries, key) ==> r == entries[IndexOf(entries, key) := (key, v)]
    ensures !HasKey(entries, key) ==> r == entries + [(key, v)]
  {
    if HasKey(entries, key) then entries[IndexOf(entries, key) := (key, v)] else entries + [(key, v)]
  }

  /**
   * Setting the value of the `i`-th key, when no key before it is the same,
   * replaces the `i`-th entry and nothing else.
   */
  lemma SetItemAt(entries: seq<(string, PyValue)>, i: nat, v: PyValue)
    requires i < |entries|
    requires forall j :: 0 <= j < i ==> entries[j].0 != entries[i].0
    ensures SetItem(entries, entries[i].0, v) == entries[i := (entries[i].0, v)]
  {
    assert Keys(entries)[i] == entries[i].0;
    var m := IndexOf(entries, entries[i].0);
    assert !(m < i) && !(i < m);
  }

  /**
   * mp3_metadata.py, lines 116-117 over the first `|items|` items of the dict `d`: each key in
   * turn is set to `instantiate_tag(key, value)`; a key that names no frame
   * class raises.
   */
  function RewriteRun(registry: Registry, items: seq<(string, PyValue)>, d: seq<(string, PyValue)>)
    : (r: Result<seq<(string, PyValue)>, Fault>)
    ensures r.Failure? <==> exists k :: 0 <= k < |items| && items[k].0 !in registry
    ensures r.Failure? ==> r.error == AttributeError
    decreases |items|
  {
    if items == [] then Success(d)
    else
      var n := |items| - 1;
      var prev := RewriteRun(registry, items[..n], d);
      if prev.Failure? then
        assert exists k :: 0 <= k < |items| && items[k].0 !in registry by {
          var k :| 0 <= k < n && items[..n][k].0 !in registry;
          assert items[k] == items[..n][k];
        }
        prev
      else
        var f := InstantiateTagMeta(registry, items[n].0, items[n].1);
        if f.Failure? then Failure(f.error)
        else
          assert forall k :: 0 <= k < n ==> items[..n][k] == items[k];
          Success(SetItem(prev.value, items[n].0, ToPy(f.value)))
  }

  /** A dict entry with its value instantiated as mp3_metadata.py, line 117 does. */
  function Instantiated(registry: Registry, e: (string, PyValue)): (r: (string, PyValue))
    requires e.0 in registry
    ensures r.0 == e.0
  {
    (e.0, ToPy(BuildByKind(e.0, registry[e.0], e.1)))
  }

  /** The dict `d` with its first `j` entries instantiated. */
  function PartlyRewritten(registry: Registry, d: seq<(string, PyValue)>, j: nat): (r: seq<(string, PyValue)>)
    requires j <= |d|
    requires forall k :: 0 <= k < j ==> d[k].0 in registry
    ensures |r| == |d|
    ensures forall k :: 0 <= k < |d| ==> r[k].0 == d[k].0
  {
    seq(|d|, k requires 0 <= k < |d| => if k < j then Instantiated(registry, d[k]) else d[k])
  }

  lemma {:induction false} RewriteRunPrefix(registry: Registry, d: seq<(string, PyValue)>, j: nat)
    requires UniqueKeys(d) && j <= |d|
    requires forall k :: 0 <= k < j ==> d[k].0 in registry
    ensures RewriteRun(registry, d[..j], d) == Success(PartlyRewritten(registry, d, j))
  {
    if j == 0 {
      assert PartlyRewritten(registry, d, 0) == d;
    } else {
      var i := j - 1;
      assert d[..j][..i] == d[..i];
      RewriteRunPrefix(registry, d, i);
      var p := PartlyRewritten(registry, d, i);
      var v := ToPy(BuildByKind(d[i].0, registry[d[i].0], d[i].1));
      SetItemAt(p, i, v);
      assert p[i := (d[i].0, v)] == PartlyRewritten(registry, d, j);
    }
  }

  /**
   * mp3_metadata.py, lines 115-117 rewrite a dict in place: the keys and their order stay the
   * same and each value becomes `instantiate_tag(key, old value)`, unless
   * some key names no frame class.
   */
  lemma RewriteInPlace(registry: Registry, d: seq<(string, PyValue)>)
    requires UniqueKeys(d)
    ensures var r := RewriteRun(registry, d, d);
      r.Success? ==>
        && Keys(r.value) == Keys(d)
        && forall k :: 0 <= k < |d| ==> r.value[k].1 == ToPy(InstantiateTagMeta(registry, d[k].0, d[k].1).value)
  {
    if RewriteRun(registry, d, d).Success? {
      assert d[..|d|] == d;
      RewriteRunPrefix(registry, d, |d|);
    }
  }

  /** mp3_metadata.py, lines 116-117: `for key, value in d.items(): d[key] = instantiate_tag(key, value)`. */
  method RewriteSubFrames(registry: Registry, d: seq<(string, PyValue)>) returns (r: Result<seq<(string, PyValue)>, Fault>)
    ensures r == RewriteRun(registry, d, d)
  {
    var current := d;
    for i := 0 to |d|
      invariant RewriteRun(registry, d[..i], d) == Success(current)
    {
      assert d[..i + 1][..i] == d[..i];
      var (key, value) := d[i];
      var f := InstantiateTagMeta(registry, key, value);
      if f.Failure? {
        return Failure(f.error);
      }
      current := SetItem(current, key, ToPy(f.value));
    }
    assert d[..|d|] == d;
    return Success(current);
  }

  // ----- the "CTOC" key -----

  /** What rewriting one descriptor's "sub_frames" gives. */
  type Rewrite = Result<Option<seq<(string, PyValue)>>, Fault>

  /**
   * mp3_metadata.py, lines 115-117 for one descriptor: the rewritten "sub_frames" dict, or
   * `None` when the descriptor has none.
   */
  function DescriptorRewrite(registry: Registry, chap: PyValue): (r: Rewrite)
    ensures Contains(chap, "sub_frames") == Success(false) ==> r == Success(None)
  {
    var has :- Contains(chap, "sub_frames");
    if !has then Success(None)
    else
      var value :- GetItem(chap, "sub_frames");
      var items :- Items(value);
      var rewritten :- RewriteRun(registry, items, items);
      Success(Some(rewritten))
  }

  /** mp3_metadata.py, line 119: the CHAP frame of descriptor `i`, with zero times and no sub-frames. */
  function ZeroChapter(i: nat): Frame {
    Chap(ChapterId(i), 0, 0, [])
  }

  /**
   * The rewrites of the descriptors, in order. Each depends on its own
   * descriptor alone, so the chapter loop is specified over all of them.
   */
  function Rewrites(registry: Registry, chaps: seq<PyValue>): (ws: seq<Rewrite>)
    ensures |ws| == |chaps|
    ensures forall k :: 0 <= k < |chaps| ==> ws[k] == DescriptorRewrite(registry, chaps[k])
  {
    seq(|chaps|, k requires 0 <= k < |chaps| => DescriptorRewrite(registry, chaps[k]))
  }

  /** The frames for the first `|ws|` descriptors, whose rewrites are `ws`. */
  function MetaChapterRun(ws: seq<Rewrite>): (r: MetaRun)
    ensures r.skipped == [] && !r.outcome.AddedNone?
    ensures r.outcome.Completed? ==> |r.added| == |ws|
    ensures r.outcome.Raised? ==> |r.added| < |ws|
    ensures forall k :: 0 <= k < |r.added| ==> r.added[k].Chap?
    decreases |ws|
  {
    if ws == [] then MetaRun([], Completed, [])
    else
      var n := |ws| - 1;
      var prev := MetaChapterRun(ws[..n]);
      if !prev.outcome.Completed? then prev
      else
        match ws[n]
        case Failure(e) => MetaRun(prev.added, Raised(e), [])
        case Success(_) => MetaRun(prev.added + [ZeroChapter(n)], Completed, [])
  }

  /** mp3_metadata.py, lines 112-121: a CHAP frame per descriptor, then the CTOC frame. */
  function MetaCtocEntry(registry: Registry, value: PyValue): (r: MetaRun)
    ensures r.skipped == []
  {
    match Iterate(value)
    case Failure(e) => MetaRun([], Raised(e), [])
    case Success(chaps) =>
      var r := MetaChapterRun(Rewrites(registry, chaps));
      if r.outcome.Completed? then MetaRun(r.added + [TocFrame(|chaps|)], Completed, [])
      else r
  }

  // ----- the loop over the mapping -----

  /** mp3_metadata.py, lines 110-130 for one key. */
  function MetaEntryRun(registry: Registry, tag: string, value: PyValue): (r: MetaRun)
    ensures tag !in AllowList <==> r.skipped == [tag]
    ensures tag !in AllowList ==> r == MetaRun([], Completed, [tag])
    ensures forall k :: 0 <= k < |r.added| ==> FrameId(r.added[k]) in AllowList || FrameId(r.added[k]) == "CHAP"
  {
    if tag !in AllowList then MetaRun([], Completed, [tag])
    else if tag == "CTOC" then
      var r := MetaCtocEntry(registry, value);
      assert forall k :: 0 <= k < |r.added| ==> r.added[k].Chap? || r.added[k].Ctoc?;
      r
    else if value.Str? then
      match InstantiateTagMeta(registry, tag, value)
      case Failure(e) => MetaRun([], Raised(e), [])
      case Success(None) => MetaRun([], AddedNone, [])
      case Success(Some(f)) => MetaRun([f], Completed, [])
    else if value.Dict? then
      if tag !in registry then MetaRun([], Raised(AttributeError), [])
      else MetaRun([FromFields(tag, WithDefaultEncoding(value.entries))], Completed, [])
    else MetaRun([], Completed, [])
  }

  /** The loop over the first `|entries|` entries of the mapping. */
  function MetaEntriesRun(registry: Registry, entries: seq<(string, PyValue)>): (r: MetaRun)
    ensures forall k :: 0 <= k < |r.added| ==> FrameId(r.added[k]) in AllowList || FrameId(r.added[k]) == "CHAP"
    decreases |entries|
  {
    if entries == [] then MetaRun([], Completed, [])
    else
      var n := |entries| - 1;
      var prev := MetaEntriesRun(registry, entries[..n]);
      if !prev.outcome.Completed? then prev
      else
        var step := MetaEntryRun(registry, entries[n].0, entries[n].1);
        MetaRun(prev.added + step.added, step.outcome, prev.skipped + step.skipped)
  }

  /** `for tag, value in target.items(): ...` */
  function MetadataRun(registry: Registry, target: PyValue): (r: MetaRun)
    ensures !target.Dict? ==> r == MetaRun([], Raised(AttributeError), [])
  {
    match Items(target)
    case Failure(e) => MetaRun([], Raised(e), [])
    case Success(entries) => MetaEntriesRun(registry, entries)
  }

  // ----- once stopped, a run stays stopped -----

  lemma {:induction false} MetaChapterRunStopped(ws: seq<Rewrite>, j: nat)
    requires j <= |ws|
    requires !MetaChapterRun(ws[..j]).outcome.Completed?
    ensures MetaChapterRun(ws) == MetaChapterRun(ws[..j])
    decreases |ws| - j
  {
    if j < |ws| {
      var n := |ws| - 1;
      assert ws[..n][..j] == ws[..j];
      MetaChapterRunStopped(ws[..n], j);
    } else {
      assert ws[..j] == ws;
    }
  }

  lemma {:induction false} MetaEntriesRunStopped(registry: Registry, entries: seq<(string, PyValue)>, j: nat)
    requires j <= |entries|
    requires !MetaEntriesRun(registry, entries[..j]).outcome.Completed?
    ensures MetaEntriesRun(registry, entries) == MetaEntriesRun(registry, entries[..j])
    decreases |entries| - j
  {
    if j < |entries| {
      var n := |entries| - 1;
      assert entries[..n][..j] == entries[..j];
      MetaEntriesRunStopped(registry, entries[..n], j);
    } else {
      assert entries[..j] == entries;
    }
  }

  /** One more descriptor: the run so far, then that descriptor's frame or fault. */
  lemma MetaChapterRunStep(ws: seq<Rewrite>, i: nat)
    requires i < |ws|
    requires MetaChapterRun(ws[..i]).outcome.Completed?
    ensures var prev := MetaChapterRun(ws[..i]);
      MetaChapterRun(ws[..i + 1]) ==
        if ws[i].Failure? then MetaRun(prev.added, Raised(ws[i].error), [])
        else MetaRun(prev.added + [ZeroChapter(i)], Completed, [])
  {
    assert ws[..i + 1][..i] == ws[..i];
  }

  /**
   * Descriptor `i` after a completed prefix: its CHAP frame is added and the
   * loop goes on, or its fault ends the whole loop there.
   */
  lemma MetaChapterRunAdvance(ws: seq<Rewrite>, i: nat)
    requires i < |ws|
    requires MetaChapterRun(ws[..i]).outcome.Completed?
    ensures var prev := MetaChapterRun(ws[..i]);
      && (ws[i].Success? ==> MetaChapterRun(ws[..i + 1]) == MetaRun(prev.added + [ZeroChapter(i)], Completed, []))
      && (ws[i].Failure? ==> MetaChapterRun(ws) == MetaRun(prev.added, Raised(ws[i].error), []))
  {
    MetaChapterRunStep(ws, i);
    if ws[i].Failure? {
      MetaChapterRunStopped(ws, i + 1);
    }
  }

  /** One more entry of the mapping: the run so far, then that entry's run. */
  lemma MetaEntriesRunStep(registry: Registry, entries: seq<(string, PyValue)>, i: nat)
    requires i < |entries|
    requires MetaEntriesRun(registry, entries[..i]).outcome.Completed?
    ensures var prev := MetaEntriesRun(registry, entries[..i]);
      var step := MetaEntryRun(registry, entries[i].0, entries[i].1);
      MetaEntriesRun(registry, entries[..i + 1]) ==
        MetaRun(prev.added + step.added, step.outcome, prev.skipped + step.skipped)
  {
    assert entries[..i + 1][..i] == entries[..i];
  }

  // ----- what the runs promise -----

  /**
   * The chapter frames stop at the first descriptor whose "sub_frames" dict
   * cannot be rewritten, with that descriptor's fault; every descriptor
   * before it was rewritten.
   */
  lemma {:induction false} MetaChapterRunOutcome(ws: seq<Rewrite>)
    ensures var r := MetaChapterRun(ws);
      && (forall k :: 0 <= k < |r.added| ==> ws[k].Success?)
      && (r.outcome.Raised? ==> ws[|r.added|] == Failure(r.outcome.fault))
    decreases |ws|
  {
    if ws != [] {
      var n := |ws| - 1;
      MetaChapterRunOutcome(ws[..n]);
      var prev := MetaChapterRun(ws[..n]);
      assert forall k :: 0 <= k < n ==> ws[..n][k] == ws[k];
      if prev.outcome.Completed? {
        assert |prev.added| == n;
      }
    }
  }

  /** The `k`-th frame the chapter loop adds is the CHAP frame "ch{k}" with zero times. */
  lemma {:induction false} MetaChapterRunZero(ws: seq<Rewrite>)
    ensures var r := MetaChapterRun(ws);
      forall k :: 0 <= k < |r.added| ==> r.added[k] == ZeroChapter(k)
    decreases |ws|
  {
    if ws != [] {
      MetaChapterRunZero(ws[..|ws| - 1]);
    }
  }

  /** The CHAP frames of `n` descriptors: "ch0" .. "ch{n-1}", times zero, no sub-frames. */
  function ZeroChapters(n: nat): (r: seq<Frame>)
    ensures |r| == n
    ensures forall k :: 0 <= k < n ==> r[k] == Chap(ChapterId(k), 0, 0, [])
  {
    seq(n, k requires 0 <= k < n => ZeroChapter(k))
  }

  /**
   * mp3_metadata.py, lines 112-121: when every descriptor's "sub_frames" can be rewritten, the
   * "CTOC" key adds exactly `n` CHAP frames with zero times and no
   * sub-frames, whatever the descriptors say, then the CTOC frame "toc"
   * listing them in order.
   */
  lemma MetaChapterTable(registry: Registry, chaps: seq<PyValue>)
    requires forall k :: 0 <= k < |chaps| ==> DescriptorRewrite(registry, chaps[k]).Success?
    ensures MetaCtocEntry(registry, List(chaps)) ==
      MetaRun(ZeroChapters(|chaps|) + [TocFrame(|chaps|)], Completed, [])
  {
    var ws := Rewrites(registry, chaps);
    MetaChapterRunOutcome(ws);
    MetaChapterRunZero(ws);
    var r := MetaChapterRun(ws);
    assert r.outcome.Completed?;
    assert r.added == ZeroChapters(|chaps|);
  }

  /** The entries of the mapping whose key is on the allow-list, in order. */
  function Listed(entries: seq<(string, PyValue)>): (r: seq<(string, PyValue)>)
    ensures forall k :: 0 <= k < |r| ==> r[k].0 in AllowList
    decreases |entries|
  {
    if entries == [] then []
    else
      var n := |entries| - 1;
      Listed(entries[..n]) + (if entries[n].0 in AllowList then [entries[n]] else [])
  }

  /** Every allow-listed entry is kept, and nothing else. */
  lemma {:induction false} ListedMembers(entries: seq<(string, PyValue)>)
    ensures forall x :: x in Listed(entries) <==> x in entries && x.0 in AllowList
    decreases |entries|
  {
    if entries != [] {
      var n := |entries| - 1;
      assert entries == entries[..n] + [entries[n]];
      ListedMembers(entries[..n]);
    }
  }

  /** Filtering keeps order: the listed entries of two parts, one after the other. */
  lemma {:induction false} ListedConcat(a: seq<(string, PyValue)>, b: seq<(string, PyValue)>)
    ensures Listed(a + b) == Listed(a) + Listed(b)
    decreases |b|
  {
    if b != [] {
      var n := |b| - 1;
      assert (a + b)[..|a| + n] == a + b[..n];
      ListedConcat(a, b[..n]);
    } else {
      assert a + b == a;
    }
  }

  /** The keys of the mapping that are not on the allow-list, in order. */
  function Unlisted(entries: seq<(string, PyValue)>): (r: seq<string>)
    ensures forall k :: 0 <= k < |r| ==> r[k] !in AllowList
    decreases |entries|
  {
    if entries == [] then []
    else
      var n := |entries| - 1;
      Unlisted(entries[..n]) + (if entries[n].0 in AllowList then [] else [entries[n].0])
  }

  /** Every key off the allow-list is reported, and nothing else. */
  lemma {:induction false} UnlistedMembers(entries: seq<(string, PyValue)>)
    ensures forall key :: key in Unlisted(entries) <==> key in Keys(entries) && key !in AllowList
    decreases |entries|
  {
    if entries != [] {
      var n := |entries| - 1;
      assert Keys(entries) == Keys(entries[..n]) + [entries[n].0];
      UnlistedMembers(entries[..n]);
    }
  }

  /** Reporting keeps order: the unlisted keys of two parts, one after the other. */
  lemma {:induction false} UnlistedConcat(a: seq<(string, PyValue)>, b: seq<(string, PyValue)>)
    ensures Unlisted(a + b) == Unlisted(a) + Unlisted(b)
    decreases |b|
  {
    if b != [] {
      var n := |b| - 1;
      assert (a + b)[..|a| + n] == a + b[..n];
      UnlistedConcat(a, b[..n]);
    } else {
      assert a + b == a;
    }
  }

  /**
   * mp3_metadata.py, lines 110 and 129-130: a key off the allow-list is reported and skipped.
   * The run adds the same frames and ends the same way as on the allow-listed
   * entries alone, and a run that goes through reports exactly the other keys.
   */
  lemma {:induction false} MetaSkipsUnlisted(registry: Registry, entries: seq<(string, PyValue)>)
    ensures MetaEntriesRun(registry, entries).added == MetaEntriesRun(registry, Listed(entries)).added
    ensures MetaEntriesRun(registry, entries).outcome == MetaEntriesRun(registry, Listed(entries)).outcome
    ensures MetaEntriesRun(registry, entries).outcome.Completed? ==>
      MetaEntriesRun(registry, entries).skipped == Unlisted(entries)
    decreases |entries|
  {
    if entries != [] {
      var n := |entries| - 1;
      MetaSkipsUnlisted(registry, entries[..n]);
      var l := Listed(entries[..n]);
      if entries[n].0 in AllowList {
        assert Listed(entries) == l + [entries[n]];
        assert (l + [entries[n]])[..|l|] == l;
      } else {
        assert Listed(entries) == l;
      }
    }
  }

  /**
   * For an allow-listed key other than "CTOC", a string or a dict value gives
   * the same frame, or the same fault, as in mp3_tagging.py; a value of any
   * other type adds nothing here and the run goes on.
   */
  lemma MetaAgreesWithTagging(registry: Registry, tag: string, value: PyValue, bound: Option<seq<PyValue>>)
    requires tag in AllowList && tag != "CTOC"
    ensures value.Str? || value.Dict? ==>
      && MetaEntryRun(registry, tag, value).added == Tagging.EntryRun(registry, tag, value, bound).added
      && MetaEntryRun(registry, tag, value).outcome == Tagging.EntryRun(registry, tag, value, bound).outcome
    ensures !value.Str? && !value.Dict? ==> MetaEntryRun(registry, tag, value) == MetaRun([], Completed, [])
  {
    if value.Str? {
      InstantiateAgreesOnStrings(registry, tag, value.s);
    }
  }

  // ----- the loops as the script runs them -----

  /** mp3_metadata.py, lines 115-117 for one descriptor. */
  method RewriteDescriptor(registry: Registry, chap: PyValue) returns (r: Rewrite)
    ensures r == DescriptorRewrite(registry, chap)
  {
    var has := Contains(chap, "sub_frames");
    if has.Failure? {
      return Failure(has.error);
    }
    if !has.value {
      return Success(None);
    }
    var value := GetItem(chap, "sub_frames");
    if value.Failure? {
      return Failure(value.error);
    }
    var items := Items(value.value);
    if items.Failure? {
      return Failure(items.error);
    }
    var rewritten := RewriteSubFrames(registry, items.value);
    if rewritten.Failure? {
      return Failure(rewritten.error);
    }
    return Success(Some(rewritten.value));
  }

  /**
   * mp3_metadata.py, lines 112-120: the loop over the descriptors, with the counter `i` and
   * the growing `child_element_ids`.
   */
  method AddMetaChapterFrames(tags: TagContainer, registry: Registry, chaps: seq<PyValue>)
    returns (outcome: Outcome, childElementIds: seq<string>)
    modifies tags
    ensures tags.frames == old(tags.frames) + MetaChapterRun(Rewrites(registry, chaps)).added
    ensures outcome == MetaChapterRun(Rewrites(registry, chaps)).outcome
    ensures outcome.Completed? ==> childElementIds == ChapterIds(|chaps|)
  {
    ghost var ws := Rewrites(registry, chaps);
    var i := 0;
    childElementIds := [];
    while i < |chaps|
      invariant 0 <= i <= |chaps|
      invariant MetaChapterRun(ws[..i]).outcome == Completed
      invariant tags.frames == old(tags.frames) + MetaChapterRun(ws[..i]).added
      invariant |childElementIds| == i
      invariant forall k :: 0 <= k < i ==> childElementIds[k] == ChapterId(k)
    {
      MetaChapterRunAdvance(ws, i);
      ghost var prev := MetaChapterRun(ws[..i]).added;
      var rewritten := RewriteDescriptor(registry, chaps[i]);
      if rewritten.Failure? {
        return Raised(rewritten.error), childElementIds;
      }
      childElementIds := childElementIds + [ChapterId(i)];
      Tagging.AppendAssoc(old(tags.frames), prev, [ZeroChapter(i)]);
      tags.Add(Chap(ChapterId(i), 0, 0, []));
      i := i + 1;
    }
    assert ws[..i] == ws;
    ChapterIdsListed(childElementIds);
    outcome := Completed;
  }

  /** mp3_metadata.py, lines 111-121: the chapter frames, then the CTOC frame listing them. */
  method AddMetaChapters(tags: TagContainer, registry: Registry, value: PyValue) returns (outcome: Outcome)
    modifies tags
    ensures tags.frames == old(tags.frames) + MetaCtocEntry(registry, value).added
    ensures outcome == MetaCtocEntry(registry, value).outcome
  {
    var chaps := Iterate(value);
    if chaps.Failure? {
      return Raised(chaps.error);
    }
    var childElementIds;
    outcome, childElementIds := AddMetaChapterFrames(tags, registry, chaps.value);
    if outcome.Completed? {
      ghost var added := tags.frames[|old(tags.frames)|..];
      Tagging.AppendAssoc(old(tags.frames), added, [TocFrame(|chaps.value|)]);
      tags.Add(Ctoc(TocId, TopLevel | Ordered, childElementIds));
    }
  }

  /** mp3_metadata.py, lines 110-130: one entry of the mapping; `reported` is the key when it is skipped. */
  method AddMetaEntry(tags: TagContainer, registry: Registry, tag: string, value: PyValue)
    returns (outcome: Outcome, reported: seq<string>)
    modifies tags
    ensures tags.frames == old(tags.frames) + MetaEntryRun(registry, tag, value).added
    ensures outcome == MetaEntryRun(registry, tag, value).outcome
    ensures reported == MetaEntryRun(registry, tag, value).skipped
  {
    reported := [];
    outcome := Completed;
    if tag !in AllowList {
      reported := [tag];
    } else if tag == "CTOC" {
      outcome := AddMetaChapters(tags, registry, value);
    } else if value.Str? {
      var f := InstantiateTagMeta(registry, tag, value);
      if f.Failure? {
        outcome := Raised(f.error);
      } else if f.value.None? {
        outcome := AddedNone;
      } else {
        tags.Add(f.value.value);
      }
    } else if value.Dict? {
      var fields := WithDefaultEncoding(value.entries);
      if tag !in registry {
        outcome := Raised(AttributeError);
      } else {
        tags.Add(FromFields(tag, fields));
      }
    }
  }

  /** mp3_metadata.py, lines 109-130: the loop over the mapping, adding to `tags`. */
  method ProcessMetadata(tags: TagContainer, registry: Registry, target: PyValue)
    returns (outcome: Outcome, reported: seq<string>)
    modifies tags
    ensures tags.frames == old(tags.frames) + MetadataRun(registry, target).added
    ensures outcome == MetadataRun(registry, target).outcome
    ensures reported == MetadataRun(registry, target).skipped
  {
    reported := [];
    var entries := Items(target);
    if entries.Failure? {
      return Raised(entries.error), reported;
    }
    for i := 0 to |entries.value|
      invariant MetaEntriesRun(registry, entries.value[..i]).outcome == Completed
      invariant tags.frames == old(tags.frames) + MetaEntriesRun(registry, entries.value[..i]).added
      invariant reported == MetaEntriesRun(registry, entries.value[..i]).skipped
    {
      MetaEntriesRunStep(registry, entries.value, i);
      ghost var prev := MetaEntriesRun(registry, entries.value[..i]).added;
      ghost var before := tags.frames;
      var r;
      outcome, r := AddMetaEntry(tags, registry, entries.value[i].0, entries.value[i].1);
      reported := reported + r;
      Tagging.AppendAssoc(old(tags.frames), prev, tags.frames[|before|..]);
      if !outcome.Completed? {
        MetaEntriesRunStopped(registry, entries.value, i + 1);
        return;
      }
    }
    assert entries.value[..|entries.value|] == entries.value;
    outcome := Completed;
  }

  /**
   * The whole script on already decoded input: the argument checks, the MP3
   * file's tag cleared, the processing loop, and the frames saved back to
   * the MP3 path.
   */
  method MetadataFile(registry: Registry, argv: seq<string>, load: LoadOutcome, target: PyValue)
    returns (saved: Option<(string, seq<Frame>)>)
    ensures saved.Some? <==>
      CheckArgv(argv).None? && (load.Loaded? || load.NoHeader?) &&
      MetadataRun(registry, target).outcome.Completed?
    ensures saved.Some? ==> saved.value == (argv[1], MetadataRun(registry, target).added)
  {
    if CheckArgv(argv).Some? {
      return None;
    }
    var tags := OpenCleared(load);
    if tags.None? {
      return None;
    }
    var outcome, reported := ProcessMetadata(tags.value, registry, target);
    if !outcome.Completed? {
      return None;
    }
    assert tags.value.frames == MetadataRun(registry, target).added;
    return Some((argv[1], tags.value.frames));
  }
}
