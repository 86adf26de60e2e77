/**
 * The files under /proc as the collectors see them in one tick, and the reading
 * steps the two Linux collectors share. File access itself (`ReusableFileReader`)
 * is replaced by these values.
 */
module ProcFs {
  import opened Wrappers
  import opened ClrIntegers
  import opened FileParser

  /**
   * A text file as one read of it goes: `lines` are the lines delivered (the first
   * line is element 0); when `complete` is false, reading throws after them. A file
   * that cannot be opened at all is `TextFile([], false)`.
   */
  datatype TextFile = TextFile(lines: seq<string>, complete: bool)

  /** The outcome of `ReadFirstLine()`: a line, no line (an empty file), or an exception. */
  datatype FirstLine = Line(text: string) | NoLine | ReadFailed

  function ReadFirstLine(f: TextFile): (r: FirstLine)
    ensures r.Line? <==> |f.lines| > 0
    ensures r.Line? ==> r.text == f.lines[0]
    ensures r.ReadFailed? <==> f.lines == [] && !f.complete
  {
    if |f.lines| > 0 then Line(f.lines[0])
    else if f.complete then NoLine
    else ReadFailed
  }

  /** `TrySplitLine(ReadFirstLine(), minParts, out parts)`; a missing line does not split. */
  function SplitFirstLine(f: TextFile, minParts: nat): (r: Option<seq<string>>)
    ensures r.Some? <==> |f.lines| > 0 && TrySplitLine(f.lines[0], minParts).Some?
    ensures r.Some? ==> r == TrySplitLine(f.lines[0], minParts)
  {
    match ReadFirstLine(f)
    case Line(text) => TrySplitLine(text, minParts)
    case NoLine => None
    case ReadFailed => None
  }

  /** The guard `TrySplitLine(ReadFirstLine(), minParts, out parts) && parts[0] == "cpu"`. */
  function CpuLineParts(stat: TextFile, minParts: nat): (r: Option<seq<string>>)
    requires minParts >= 1
    ensures r.Some? <==> SplitFirstLine(stat, minParts).Some? && SplitFirstLine(stat, minParts).value[0] == "cpu"
    ensures r.Some? ==> r == SplitFirstLine(stat, minParts) && |r.value| >= minParts
  {
    match SplitFirstLine(stat, minParts)
    case Some(parts) => if parts[0] == "cpu" then Some(parts) else None
    case None => None
  }

  /**
   * The value a loop over `lines` holds after setting it from every line that
   * `TryParseLong(line, name)` accepts: the value of the last such line.
   */
  function LastParsed(lines: seq<string>, name: string): Option<Int64>
  {
    if lines == [] then None
    else
      match TryParseLong(lines[|lines| - 1], name)
      case Some(v) => Some(v)
      case None => LastParsed(lines[..|lines| - 1], name)
  }

  /** A kB value as bytes: `value * 1024` on `long`, unchecked. */
  function KbToBytes(kb: Option<Int64>): (r: Option<Int64>)
    ensures r.Some? <==> kb.Some?
    ensures kb.Some? && -0x20_0000_0000_0000 <= kb.value < 0x20_0000_0000_0000 ==> r.value == kb.value * 1024
  {
    match kb
    case Some(v) => Some(WrapI64(v * 1024))
    case None => None
  }

  /** Reading line `i` after the lines before it: the line overrides the value when it matches. */
  lemma LastParsedStep(lines: seq<string>, i: nat, name: string)
    requires i < |lines|
    ensures LastParsed(lines[..i + 1], name) ==
            if TryParseLong(lines[i], name).Some? then TryParseLong(lines[i], name) else LastParsed(lines[..i], name)
  {
    assert lines[..i + 1][..i] == lines[..i];
  }

  /** No value exactly when no line matches. */
  lemma {:induction false} LastParsedNoneIffNoMatch(lines: seq<string>, name: string)
    ensures LastParsed(lines, name).None? <==>
            forall i :: 0 <= i < |lines| ==> TryParseLong(lines[i], name).None?
  {
    if lines != [] {
      var n := |lines| - 1;
      var init := lines[..n];
      assert forall k :: 0 <= k < n ==> init[k] == lines[k];
      if TryParseLong(lines[n], name).None? {
        LastParsedNoneIffNoMatch(init, name);
      }
    }
  }

  /** Last line wins: the value is that of the matching line no later line matches. */
  lemma {:induction false} LastParsedIsLastMatch(lines: seq<string>, name: string, i: nat)
    requires i < |lines| && TryParseLong(lines[i], name).Some?
    requires forall j :: i < j < |lines| ==> TryParseLong(lines[j], name).None?
    ensures LastParsed(lines, name) == TryParseLong(lines[i], name)
  {
    var n := |lines| - 1;
    if i < n {
      var init := lines[..n];
      assert forall k :: 0 <= k < n ==> init[k] == lines[k];
      LastParsedIsLastMatch(init, name, i);
    }
  }
}
