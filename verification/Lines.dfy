/** Physical lines of a text: the batch notion that both incremental line readers
    (`readline` of the container stream and `read_capped_line` of the pipe) are measured against. */
module Lines {

  /** Position of the first `nl` in `s`, or -1 (Python's `find`). */
  function Find<T(==)>(s: seq<T>, nl: T): (i: int)
    ensures -1 <= i < |s|
    ensures i >= 0 ==> s[i] == nl
    ensures i < 0 <==> nl !in s
  {
    if s == [] then -1
    else if s[0] == nl then 0
    else
      var j := Find(s[1..], nl);
      if j < 0 then -1 else j + 1
  }

  lemma {:induction false} FindIsFirst<T>(s: seq<T>, nl: T)
    requires nl in s
    ensures nl !in s[..Find(s, nl)]
  {
    if s[0] != nl {
      FindIsFirst(s[1..], nl);
      var j := Find(s[1..], nl);
      assert s[..j + 1] == [s[0]] + s[1..][..j];
    }
  }

  /** The text cut after every newline; only the last line can be unterminated. */
  function Physical<T(==)>(s: seq<T>, nl: T): (ls: seq<seq<T>>)
    ensures s == [] <==> ls == []
  {
    var i := Find(s, nl);
    if s == [] then []
    else if i < 0 then [s]
    else [s[..i + 1]] + Physical(s[i + 1..], nl)
  }

  function Flatten<T>(ls: seq<seq<T>>): seq<T> {
    if ls == [] then [] else ls[0] + Flatten(ls[1..])
  }

  function Tail<T>(s: seq<T>): seq<T> {
    if s == [] then [] else s[1..]
  }

  /** Length of a line without its newline. */
  function Width<T(==)>(line: seq<T>, nl: T): nat {
    if Terminated(line, nl) then |line| - 1 else |line|
  }

  predicate Terminated<T(==)>(line: seq<T>, nl: T) {
    line != [] && line[|line| - 1] == nl
  }

  /** A physical line holds its newline, if any, at the very end. */
  ghost predicate IsLine<T>(line: seq<T>, nl: T) {
    line != [] && nl !in line[..|line| - 1]
  }

  /** Cutting loses nothing, and the pieces are lines: together these pin `Physical` down. */
  lemma {:induction false} PhysicalLosesNothing<T>(s: seq<T>, nl: T)
    ensures Flatten(Physical(s, nl)) == s
    decreases |s|
  {
    var i := Find(s, nl);
    hide Find;
    if s != [] {
      if i < 0 {
        assert Physical(s, nl)[1..] == [];
      } else {
        PhysicalLosesNothing(s[i + 1..], nl);
        assert Physical(s, nl)[1..] == Physical(s[i + 1..], nl);
        assert s == s[..i + 1] + s[i + 1..];
      }
    }
  }

  lemma {:induction false} PhysicalAreLines<T>(s: seq<T>, nl: T, k: nat)
    requires k < |Physical(s, nl)|
    ensures IsLine(Physical(s, nl)[k], nl)
    ensures k < |Physical(s, nl)| - 1 ==> Terminated(Physical(s, nl)[k], nl)
    decreases k
  {
    var i := Find(s, nl);
    if i >= 0 {
      FindIsFirst(s, nl);
      CutAt(s, nl, i);
      hide Find, Physical;
      if k > 0 { PhysicalAreLines(s[i + 1..], nl, k - 1); }
      assert s[..i + 1][..i] == s[..i];
    }
  }

  /** Unfolding of `Physical` at a known first newline. */
  lemma CutAt<T>(s: seq<T>, nl: T, i: nat)
    requires i < |s| && Find(s, nl) == i
    ensures Physical(s, nl) == [s[..i + 1]] + Physical(s[i + 1..], nl)
    ensures Tail(Physical(s, nl)) == Physical(s[i + 1..], nl)
    ensures Physical(s, nl)[0] == s[..i + 1]
  {
    hide Find;
  }

  lemma Uncut<T>(s: seq<T>, nl: T)
    requires nl !in s
    ensures Physical(s, nl) == if s == [] then [] else [s]
    ensures Tail(Physical(s, nl)) == []
  {
  }

  /** Bytes held back without a newline only ever lengthen the first line. */
  lemma HeldBack<T>(held: seq<T>, rest: seq<T>, nl: T)
    requires nl !in held
    ensures Tail(Physical(held + rest, nl)) == Tail(Physical(rest, nl))
    ensures held != [] ==> |held| <= Width(Physical(held + rest, nl)[0], nl)
  {
    hide Physical;
    var i := Find(rest, nl);
    if i < 0 {
      Uncut(held + rest, nl);
      Uncut(rest, nl);
    } else {
      var text, k := held + rest, |held| + i;
      assert text[k + 1..] == rest[i + 1..];
      FindAfter(held, rest, nl);
      CutAt(text, nl, k);
      CutAt(rest, nl, i);
    }
  }

  lemma {:induction false} FindAfter<T>(held: seq<T>, rest: seq<T>, nl: T)
    requires nl !in held && nl in rest
    ensures Find(held + rest, nl) == |held| + Find(rest, nl)
  {
    if held == [] {
      assert held + rest == rest;
    } else {
      FindAfter(held[1..], rest, nl);
      assert (held + rest)[1..] == held[1..] + rest;
    }
  }

  /** A complete line in front is the first physical line. */
  lemma FirstLine<T>(line: seq<T>, rest: seq<T>, nl: T)
    requires nl !in line
    ensures Physical(line + [nl] + rest, nl) == [line + [nl]] + Physical(rest, nl)
  {
    var text := line + [nl] + rest;
    assert text == line + ([nl] + rest);
    FindAfter(line, [nl] + rest, nl);
    var i := |line|;
    CutAt(text, nl, i);
    assert text[..i + 1] == line + [nl];
    assert text[i + 1..] == rest;
  }
}
