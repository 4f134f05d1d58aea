/**
 * The chapter table both scripts write for the "CTOC" key: one CHAP frame per
 * chapter with the synthetic element ids "ch0", "ch1", ... and one CTOC frame
 * "toc" listing them, as in sections 3 and 4 of the ID3v2 Chapter Frame
 * Addendum 1.0.
 */
module Chapters {
  import opened PyStr
  import opened Values

  /** The CTOC "top-level" flag (bit 1 of the flags byte). */
  const TopLevel: bv8 := 0x02

  /** The CTOC "ordered" flag (bit 0 of the flags byte). */
  const Ordered: bv8 := 0x01

  /** The element id of the table of contents. */
  const TocId: string := "toc"

  /**
   * `child_element_ids` after `n` chapters: each chapter appends its own
   * id to the list.
   */
  function ChapterIds(n: nat): (ids: seq<string>)
    ensures |ids| == n
  {
    if n == 0 then [] else ChapterIds(n - 1) + [ChapterId(n - 1)]
  }

  /** The `k`-th child is the id of the `k`-th chapter, "ch" followed by `k`. */
  lemma {:induction false} ChapterIdsAt(n: nat, k: nat)
    requires k < n
    ensures ChapterIds(n)[k] == ChapterId(k)
  {
    if k < n - 1 {
      ChapterIdsAt(n - 1, k);
    }
  }

  /** `id3.CTOC("toc", TOP_LEVEL | ORDERED, child_element_ids)` after `n` chapters. */
  function TocFrame(n: nat): (f: Frame)
    ensures f.Ctoc? && f.elementId == TocId && f.childElementIds == ChapterIds(n)
  {
    Ctoc(TocId, TopLevel | Ordered, ChapterIds(n))
  }

  /** A list whose `k`-th entry is "ch{k}" for every `k` is the child list. */
  lemma ChapterIdsListed(ids: seq<string>)
    requires forall k :: 0 <= k < |ids| ==> ids[k] == ChapterId(k)
    ensures ids == ChapterIds(|ids|)
  {
    forall k | 0 <= k < |ids| ensures ids[k] == ChapterIds(|ids|)[k] {
      ChapterIdsAt(|ids|, k);
    }
  }

  /**
   * The table of contents is a top-level, ordered one: both flags are set
   * and no other bit is.
   */
  lemma TocFlags(n: nat)
    ensures TocFrame(n).flags & TopLevel != 0 && TocFrame(n).flags & Ordered != 0
    ensures TocFrame(n).flags == 0x03
  {
  }

  /** The child list names every chapter once: no id occurs twice. */
  lemma ChapterIdsDistinct(n: nat)
    ensures forall j, k :: 0 <= j < k < n ==> ChapterIds(n)[j] != ChapterIds(n)[k]
  {
    forall j, k | 0 <= j < k < n ensures ChapterIds(n)[j] != ChapterIds(n)[k] {
      ChapterIdsAt(n, j);
      ChapterIdsAt(n, k);
      ChapterIdInjective(j, k);
    }
  }
}
