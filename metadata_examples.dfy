/** The processing loop of mp3_metadata.py on small inputs, worked out. */
module MetadataExamples {
  import opened Wrappers
  import opened PyStr
  import opened Values
  import opened FrameBuilder
  import opened Chapters
  import opened Container
  import opened Metadata

  /**
   * Two chapter descriptors without "sub_frames": the times in the input do
   * not matter, both CHAP frames get zero times and no sub-frames, and the
   * CTOC frame lists "ch0" and "ch1".
   */
  lemma ChaptersWithZeroTimes(registry: Registry)
    ensures var first := Dict([("start", Int(0)), ("end", Str("1:00"))]);
      var second := Dict([("start", Str("1:00")), ("end", Str("2:00"))]);
      MetadataRun(registry, Dict([("CTOC", List([first, second]))])) ==
        MetaRun([Chap("ch0", 0, 0, []), Chap("ch1", 0, 0, []), Ctoc("toc", 0x03, ["ch0", "ch1"])], Completed, [])
  {
    var first := Dict([("start", Int(0)), ("end", Str("1:00"))]);
    var second := Dict([("start", Str("1:00")), ("end", Str("2:00"))]);
    var chaps := [first, second];
    assert Keys(first.entries) == ["start", "end"];
    assert Keys(second.entries) == ["start", "end"];
    MetaChapterTable(registry, chaps);
    TwoChapterIds();
    var entries := [("CTOC", List(chaps))];
    assert entries[..0] == [];
  }

  /** The ids of the first two chapters, and the child list after them. */
  lemma TwoChapterIds()
    ensures ChapterId(0) == "ch0" && ChapterId(1) == "ch1"
    ensures ChapterIds(2) == ["ch0", "ch1"]
  {
    assert NatToString(0) == "0" && NatToString(1) == "1";
    assert ChapterId(0) == "ch0" && ChapterId(1) == "ch1";
    assert ChapterIds(1) == [] + ["ch0"];
  }

  /** A key off the allow-list is reported and the next key is still processed. */
  lemma UnknownKeySkipped(registry: Registry)
    requires "TIT2" in registry && registry["TIT2"] == TextFrame
    ensures MetadataRun(registry, Dict([("XXXX", Str("x")), ("TIT2", Str("Song"))])) ==
      MetaRun([TextLike("TIT2", 3, Str("Song"))], Completed, ["XXXX"])
  {
    var entries := [("XXXX", Str("x")), ("TIT2", Str("Song"))];
    assert entries[..1][..0] == [];
    assert entries[..1] == [("XXXX", Str("x"))];
    assert "XXXX" !in AllowList && "TIT2" in AllowList;
    assert MetaEntriesRun(registry, entries[..1]) == MetaRun([], Completed, ["XXXX"]);
    assert MetaEntryRun(registry, "TIT2", Str("Song")) == MetaRun([TextLike("TIT2", 3, Str("Song"))], Completed, []);
  }
}
