/** The processing loop of mp3_tagging.py on small inputs, worked out. */
module TaggingExamples {
  import opened Wrappers
  import opened Values
  import opened Timestamp
  import opened FrameBuilder
  import opened Container
  import opened Tagging
  import opened TimestampExamples

  /** `{"TIT2": "Song"}` gives one title frame, encoding 3. */
  lemma TitleOnly(registry: Registry)
    requires "TIT2" in registry && registry["TIT2"] == TextFrame
    ensures ProcessingRun(registry, Dict([("TIT2", Str("Song"))])) ==
      TagRun([TextLike("TIT2", 3, Str("Song"))], Completed, None)
  {
    var entries := [("TIT2", Str("Song"))];
    assert entries[..0] == [];
    assert TaggingRun(registry, entries[..0], None) == TagRun([], Completed, None);
  }

  /** An unknown frame id raises instead of being skipped. */
  lemma UnknownKeyRaises(registry: Registry)
    requires "XXXX" !in registry
    ensures ProcessingRun(registry, Dict([("XXXX", Str("x"))])).outcome == Raised(AttributeError)
  {
    var entries := [("XXXX", Str("x"))];
    assert entries[..0] == [];
    assert TaggingRun(registry, entries[..0], None) == TagRun([], Completed, None);
  }

  /**
   * Two chapter descriptors without "sub_frames": the first CHAP frame finds
   * `temp_sub_frames` unbound and the script raises `NameError`.
   */
  lemma ChaptersWithoutSubFrames(registry: Registry)
    ensures var first := Dict([("start", Int(0)), ("end", Str("1:00"))]);
      var second := Dict([("start", Str("1:00")), ("end", Str("2:00"))]);
      ProcessingRun(registry, Dict([("CTOC", List([first, second]))])).outcome == Raised(NameError)
  {
    var first := Dict([("start", Int(0)), ("end", Str("1:00"))]);
    var second := Dict([("start", Str("1:00")), ("end", Str("2:00"))]);
    var entries := [("CTOC", List([first, second]))];
    assert Keys(first.entries) == ["start", "end"];
    ConvertOneColonZeroZero();
    UnboundSubFrames(registry, [first, second]);
    assert entries[..0] == [];
    assert TaggingRun(registry, entries[..0], None) == TagRun([], Completed, None);
  }
}
