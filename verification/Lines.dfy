/** Newline-delimited bytes: the last newline, and the non-empty lines. */
module Lines {

  newtype Byte = b: int | 0 <= b < 256

  const NEWLINE: Byte := 10

  predicate EndsWithNewline(bytes: seq<Byte>) {
    |bytes| > 0 && bytes[|bytes| - 1] == NEWLINE
  }

  // No newline in bytes[from..to].
  ghost predicate Unbroken(bytes: seq<Byte>, from: nat, to: nat)
    requires from <= to <= |bytes|
  {
    forall i :: from <= i < to ==> bytes[i] != NEWLINE
  }

  // One past the last newline; 0 when there is none.
  function CutLength(bytes: seq<Byte>): (cut: nat)
    ensures cut <= |bytes|
    ensures cut > 0 ==> bytes[cut - 1] == NEWLINE
    ensures Unbroken(bytes, cut, |bytes|)
  {
    if bytes == [] then 0
    else if bytes[|bytes| - 1] == NEWLINE then |bytes|
    else CutLength(bytes[..|bytes| - 1])
  }

  function FirstNewline(bytes: seq<Byte>): (at: nat)
    ensures at <= |bytes|
    ensures at < |bytes| ==> bytes[at] == NEWLINE
    ensures Unbroken(bytes, 0, at)
  {
    if bytes == [] || bytes[0] == NEWLINE then 0
    else
      var at := FirstNewline(bytes[1..]);
      assert forall i :: 0 < i <= at ==> bytes[i] == bytes[1..][i - 1];
      at + 1
  }

  // `split(newline)` with the empty pieces filtered away.
  function NonEmptyLines(bytes: seq<Byte>): seq<seq<Byte>> {
    if bytes == [] then []
    else
      var at := FirstNewline(bytes);
      var first := if at == 0 then [] else [bytes[..at]];
      if at == |bytes| then first else first + NonEmptyLines(bytes[at + 1..])
  }

  /** A newline in front ends an empty line, which is no line. */
  lemma EmptyLinesAreDropped(rest: seq<Byte>)
    ensures NonEmptyLines([NEWLINE] + rest) == NonEmptyLines(rest)
  {
    var bytes := [NEWLINE] + rest;
    assert FirstNewline(bytes) == 0 && bytes[1..] == rest;
  }

  // A last line no newline ends is a line all the same.
  lemma LastLineCounts(line: seq<Byte>)
    requires line != [] && NEWLINE !in line
    ensures NonEmptyLines(line) == [line]
  {
    assert forall i :: 0 <= i < |line| ==> line[i] in line;
    assert line[..|line|] == line;
  }

  // A line, its newline, and whatever follows.
  lemma LinesOfRecord(line: seq<Byte>, rest: seq<Byte>)
    requires line != [] && NEWLINE !in line
    ensures NonEmptyLines(line + [NEWLINE] + rest) == [line] + NonEmptyLines(rest)
  {
    var bytes := line + [NEWLINE] + rest;
    assert bytes[|line|] == NEWLINE;
    assert forall i :: 0 <= i < |line| ==> bytes[i] in line;
    assert FirstNewline(bytes) == |line|;
    assert bytes[..|line|] == line;
    assert bytes[|line| + 1..] == rest;
  }

  // Cutting complete lines followed by an unfinished one drops exactly the unfinished one.
  lemma CutDropsTheTornTail(whole: seq<Byte>, torn: seq<Byte>)
    requires EndsWithNewline(whole) && NEWLINE !in torn
    ensures CutLength(whole + torn) == |whole|
  {
    var bytes := whole + torn;
    assert bytes[|whole| - 1] == NEWLINE;
    assert forall i :: |whole| <= i < |bytes| ==> bytes[i] in torn;
  }
}
