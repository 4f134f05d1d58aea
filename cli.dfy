/**
 * The command-line checks and the save settings: the extension checks that
 * end a script before any file is read, where the tagged file is written,
 * and the padding mutagen is asked to use.
 */
module Cli {
  import opened Wrappers
  import opened PyStr

  /** Why a script stops before reading anything (after printing a message). */
  datatype ArgError = TooFewArguments | WrongMp3Type | WrongJsonType

  /** The extension checks of mp3_tagging.py; `None` when both paths pass. */
  function CheckPaths(mp3file: string, jsonfile: string): (err: Option<ArgError>)
    ensures err.None? <==> EndsWith(mp3file, ".mp3") && EndsWith(jsonfile, ".json")
    ensures err == Some(WrongMp3Type) <==> !EndsWith(mp3file, ".mp3")
    ensures err != Some(TooFewArguments)
  {
    if !EndsWith(mp3file, ".mp3") then Some(WrongMp3Type)
    else if !EndsWith(jsonfile, ".json") then Some(WrongJsonType)
    else None
  }

  /**
   * The `sys.argv` checks of mp3_metadata.py: at least the script name and
   * two paths, an MP3 path first and a JSON path second; extra arguments are
   * ignored.
   */
  function CheckArgv(argv: seq<string>): (err: Option<ArgError>)
    ensures err == Some(TooFewArguments) <==> |argv| < 3
    ensures err.None? <==> |argv| >= 3 && EndsWith(argv[1], ".mp3") && EndsWith(argv[2], ".json")
  {
    if |argv| < 3 then Some(TooFewArguments)
    else if !EndsWith(argv[1], ".mp3") then Some(WrongMp3Type)
    else if !EndsWith(argv[2], ".json") then Some(WrongJsonType)
    else None
  }

  /** Given both paths, the two scripts reject the same inputs with the same message. */
  lemma ArgvChecksAgree(argv: seq<string>)
    requires |argv| >= 3
    ensures CheckArgv(argv) == CheckPaths(argv[1], argv[2])
  {
  }

  /** mp3_tagging.py's save path: with `-n` every ".mp3" becomes "_tagged.mp3". */
  function SavePath(mp3file: string, n: bool): (path: string)
    ensures !n ==> path == mp3file
  {
    if n then ReplaceAll(mp3file, ".mp3", "_tagged.mp3") else mp3file
  }

  /** `padding = lambda info: max(info.padding, 0)` */
  function SavePadding(padding: int): (r: int)
    ensures r >= 0 && r >= padding
    ensures r == padding || r == 0
  {
    if padding > 0 then padding else 0
  }

  /**
   * With `-n` the save path differs from the input path exactly when the
   * input contains ".mp3" somewhere.
   */
  lemma SavePathRenames(mp3file: string)
    ensures SavePath(mp3file, true) != mp3file <==> HasSubstring(mp3file, ".mp3")
  {
    ReplaceAllGrows(mp3file, ".mp3", "_tagged.mp3");
    if !HasSubstring(mp3file, ".mp3") {
      ReplaceAllAbsent(mp3file, ".mp3", "_tagged.mp3");
    }
  }

  /**
   * Once the extension check has passed, `-n` saves under a path that
   * differs from the input path and ends in "_tagged.mp3". (The input file's
   * own tag is still stripped on disk by `tags.delete()` at load, which this
   * model does not cover.)
   */
  lemma NoOverwriteWithN(mp3file: string, jsonfile: string)
    requires CheckPaths(mp3file, jsonfile).None?
    ensures SavePath(mp3file, true) != mp3file
    ensures EndsWith(SavePath(mp3file, true), "_tagged.mp3")
  {
    TaggedNameEnding(mp3file);
    assert mp3file[|mp3file| - 4..] == ".mp3";
    assert HasSubstring(mp3file, ".mp3") by {
      SuffixIsSubstring(mp3file, ".mp3");
    }
    SavePathRenames(mp3file);
  }

  lemma {:induction false} SuffixIsSubstring(s: string, p: string)
    requires EndsWith(s, p)
    ensures HasSubstring(s, p)
    decreases |s|
  {
    if |s| > |p| {
      EndsWithTail(s, 1, p);
      SuffixIsSubstring(s[1..], p);
    } else {
      assert s == s[|s| - |p|..];
    }
  }
}
