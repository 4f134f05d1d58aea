/**
 * The mutagen `ID3` tag container as the scripts use it: opened and cleared
 * before processing, then frames added one at a time.
 */
module Container {
  import opened Wrappers
  import opened Values

  /** The frames a container holds, in the order they were added. */
  class TagContainer {
    var frames: seq<Frame>

    /** `id3.ID3()`: a container with no frames. */
    constructor()
      ensures frames == []
    {
      frames := [];
    }

    /** `tags.load(...)`: the frames read from the file replace the contents. */
    method Load(read: seq<Frame>)
      modifies this
      ensures frames == read
    {
      frames := read;
    }

    /** `tags.delete()`: the container is cleared (the removal of the tag from the file on disk is not modelled). */
    method Delete()
      modifies this
      ensures frames == []
    {
      frames := [];
    }

    /** `tags.add(frame)` */
    method Add(f: Frame)
      modifies this
      ensures frames == old(frames) + [f]
    {
      frames := frames + [f];
    }
  }

  /**
   * How a processing loop ended: it ran through, an exception ended the
   * script, or `None` was handed to `tags.add`, where what mutagen does is
   * not part of this model.
   */
  datatype Outcome = Completed | Raised(fault: Fault) | AddedNone

  /** What reading the MP3 file's existing tag turned out to be. */
  datatype LoadOutcome =
    | Loaded(read: seq<Frame>)
    | NoHeader
    | NotFound
    | PermissionDenied
    | OtherLoadError

  /**
   * The "read mp3" block of both scripts: a loaded tag is deleted, a file
   * without one gives a fresh container; every other error ends the script.
   * Either way processing starts from an empty container.
   */
  method OpenCleared(load: LoadOutcome) returns (tags: Option<TagContainer>)
    ensures tags.Some? <==> load.Loaded? || load.NoHeader?
    ensures tags.Some? ==> fresh(tags.value) && tags.value.frames == []
  {
    var t := new TagContainer();
    match load {
      case Loaded(read) =>
        t.Load(read);
        t.Delete();
        tags := Some(t);
      case NoHeader =>
        t := new TagContainer();
        tags := Some(t);
      case _ =>
        tags := None;
    }
  }
}
