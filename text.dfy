/**
 * String operations of JavaScript that the chat code relies on, written out
 * over `seq<char>`: `split('\n')`, `join`, `startsWith`, `trim`, and the
 * decimal rendering of integers used by `String(n)`.
 */
module Text {

  /** Concatenation of a sequence of strings, in order (`parts.join('')`). */
  function Concat(parts: seq<string>): (r: string)
    ensures |parts| == 1 ==> r == parts[0]
  {
    if parts == [] then "" else Concat(parts[..|parts| - 1]) + parts[|parts| - 1]
  }

  lemma {:induction false} ConcatAppend(a: seq<string>, b: seq<string>)
    ensures Concat(a + b) == Concat(a) + Concat(b)
    decreases |b|
  {
    if b == [] {
      assert a + b == a;
    } else {
      var b' := b[..|b| - 1];
      assert (a + b)[..|a + b| - 1] == a + b';
      ConcatAppend(a, b');
    }
  }

  /** Taking one more part appends it. */
  lemma ConcatPrefixGrows(parts: seq<string>, i: nat)
    requires i < |parts|
    ensures Concat(parts[..i + 1]) == Concat(parts[..i]) + parts[i]
  {
    assert parts[..i + 1][..i] == parts[..i];
  }

  /** Cutting the parts anywhere cuts their concatenation there. */
  lemma ConcatSplitAt(parts: seq<string>, i: nat)
    requires i <= |parts|
    ensures Concat(parts) == Concat(parts[..i]) + Concat(parts[i..])
  {
    TakeDropJoin(parts, i);
    ConcatAppend(parts[..i], parts[i..]);
  }

  /** `pieces.join(sep)`. */
  function Join(pieces: seq<string>, sep: string): string
  {
    if pieces == [] then ""
    else if |pieces| == 1 then pieces[0]
    else pieces[0] + sep + Join(pieces[1..], sep)
  }

  /** `s.split('\n')`: the pieces between line feeds; there is always at least one. */
  function Split(s: string): (pieces: seq<string>)
    ensures |pieces| >= 1
  {
    if s == [] then [""]
    else
      var rest := Split(s[1..]);
      if s[0] == '\n' then [""] + rest
      else [[s[0]] + rest[0]] + rest[1..]
  }

  /** No piece holds a line feed. */
  lemma {:induction false} SplitPiecesHaveNoLineFeed(s: string)
    ensures forall i :: 0 <= i < |Split(s)| ==> '\n' !in Split(s)[i]
    decreases |s|
  {
    if s != [] {
      SplitPiecesHaveNoLineFeed(s[1..]);
      var rest := Split(s[1..]);
      if s[0] != '\n' {
        var pieces := Split(s);
        assert pieces[1..] == rest[1..];
        assert '\n' !in pieces[0] by {
          forall k | 0 <= k < |pieces[0]| ensures pieces[0][k] != '\n' {
            if k > 0 { assert pieces[0][k] == rest[0][k - 1]; }
          }
        }
        forall i | 1 <= i < |pieces| ensures '\n' !in pieces[i] {
          assert pieces[i] == rest[i];
        }
      } else {
        assert forall i :: 1 <= i < |Split(s)| ==> Split(s)[i] == rest[i - 1];
      }
    }
  }

  /** Joining the pieces with line feeds gives back the text. */
  lemma {:induction false} SplitJoin(s: string)
    ensures Join(Split(s), "\n") == s
    decreases |s|
  {
    if s != [] {
      SplitJoin(s[1..]);
      var rest := Split(s[1..]);
      if s[0] == '\n' {
        JoinCons("", rest, "\n");
        assert s == "\n" + s[1..];
      } else {
        var head := [s[0]] + rest[0];
        assert s == [s[0]] + s[1..];
        if |rest| == 1 {
          assert Split(s) == [head];
        } else {
          JoinCons(head, rest[1..], "\n");
          HeadTail(rest);
          JoinCons(rest[0], rest[1..], "\n");
          AppendAssoc([s[0]], rest[0], "\n" + Join(rest[1..], "\n"));
          AppendAssoc(head, "\n", Join(rest[1..], "\n"));
          AppendAssoc(rest[0], "\n", Join(rest[1..], "\n"));
        }
      }
    }
  }

  /** Joining a piece in front of a non-empty sequence of pieces. */
  lemma JoinCons(p: string, ps: seq<string>, sep: string)
    requires ps != []
    ensures Join([p] + ps, sep) == p + sep + Join(ps, sep)
  {
    assert ([p] + ps)[1..] == ps;
  }

  /** The pieces that a line feed terminates: every element of `split` but the last. */
  function CompleteLines(s: string): seq<string>
  {
    var pieces := Split(s);
    pieces[..|pieces| - 1]
  }

  /** The text after the last line feed: what `lines.pop()` leaves in the buffer. */
  function Tail(s: string): string
  {
    var pieces := Split(s);
    pieces[|pieces| - 1]
  }

  /** Appending text only extends the last piece and adds new ones after it. */
  lemma {:induction false} SplitAppend(a: string, b: string)
    ensures Split(a + b) == CompleteLines(a) + Split(Tail(a) + b)
    decreases |a|
  {
    if a == [] {
      assert a + b == b;
    } else {
      assert (a + b)[1..] == a[1..] + b;
      SplitAppend(a[1..], b);
      var rest := Split(a[1..]);
      if a[0] != '\n' && |rest| == 1 {
        assert Tail(a) == [a[0]] + Tail(a[1..]);
        assert Tail(a) + b == [a[0]] + (Tail(a[1..]) + b);
        assert (Tail(a) + b)[1..] == Tail(a[1..]) + b;
      }
    }
  }

  /** Lines completed by the whole input are those of a prefix, then those completed after it. */
  lemma CompleteLinesAppend(a: string, b: string)
    ensures CompleteLines(a + b) == CompleteLines(a) + CompleteLines(Tail(a) + b)
    ensures Tail(a + b) == Tail(Tail(a) + b)
  {
    var whole, rest := Split(a + b), Split(Tail(a) + b);
    SplitAppend(a, b);
    assert whole == CompleteLines(a) + rest;
    DropLastOfAppend(CompleteLines(a), rest);
    assert CompleteLines(a + b) == whole[..|whole| - 1];
    assert CompleteLines(Tail(a) + b) == rest[..|rest| - 1];
    assert Tail(a + b) == whole[|whole| - 1];
    assert Tail(Tail(a) + b) == rest[|rest| - 1];
  }

  /** Taking one more element of a sequence appends it. */
  lemma PrefixGrows<T>(s: seq<T>, j: nat)
    requires j < |s|
    ensures s[..j + 1] == s[..j] + [s[j]]
  {
  }

  lemma HeadOfAppend<T>(a: seq<T>, b: seq<T>)
    requires a != []
    ensures (a + b)[0] == a[0] && (a + b)[1..] == a[1..] + b
  {
  }

  lemma PrefixAfterGrows<T>(pre: seq<T>, s: seq<T>, j: nat)
    requires j < |s|
    ensures (pre + s[..j]) + [s[j]] == pre + s[..j + 1]
  {
    PrefixGrows(s, j);
    AppendAssoc(pre, s[..j], [s[j]]);
  }

  lemma TakeDropJoin<T>(s: seq<T>, i: nat)
    requires i <= |s|
    ensures s[..i] + s[i..] == s
  {
  }

  lemma AppendAssoc<T>(x: seq<T>, y: seq<T>, z: seq<T>)
    ensures (x + y) + z == x + (y + z)
  {
  }

  /** A non-empty sequence is its first element followed by the others. */
  lemma HeadTail<T>(s: seq<T>)
    requires s != []
    ensures s == [s[0]] + s[1..]
  {
  }

  lemma DropLastOfAppend<T>(prefix: seq<T>, rest: seq<T>)
    requires rest != []
    ensures (prefix + rest)[..|prefix + rest| - 1] == prefix + rest[..|rest| - 1]
    ensures (prefix + rest)[|prefix + rest| - 1] == rest[|rest| - 1]
  {
  }

  /** Input that holds no line feed completes no line: a trailing partial line is never processed. */
  lemma {:induction false} NoLineFeedNoLine(s: string)
    requires '\n' !in s
    ensures CompleteLines(s) == [] && Tail(s) == s
    decreases |s|
  {
    if s != [] {
      assert '\n' !in s[1..] by {
        forall i | 0 <= i < |s[1..]| ensures s[1..][i] != '\n' { assert s[1..][i] == s[i + 1]; }
      }
      NoLineFeedNoLine(s[1..]);
    }
  }

  /** A line feed-free text followed by a line feed completes exactly that one line. */
  lemma {:induction false} OneLine(line: string)
    requires '\n' !in line
    ensures Split(line + "\n") == [line, ""]
    ensures CompleteLines(line + "\n") == [line] && Tail(line + "\n") == ""
    decreases |line|
  {
    if line != [] {
      assert '\n' !in line[1..] by {
        forall i | 0 <= i < |line[1..]| ensures line[1..][i] != '\n' { assert line[1..][i] == line[i + 1]; }
      }
      assert (line + "\n")[1..] == line[1..] + "\n";
      OneLine(line[1..]);
      assert [line[0]] + line[1..] == line;
    }
  }

  lemma NoLineFeedConcat(x: string, y: string)
    requires '\n' !in x && '\n' !in y
    ensures '\n' !in x + y
  {
    forall i | 0 <= i < |x + y| ensures (x + y)[i] != '\n' {
      if i < |x| { assert (x + y)[i] == x[i]; } else { assert (x + y)[i] == y[i - |x|]; }
    }
  }

  /** A trailing partial line is never processed: appending it completes no new line. */
  lemma TrailingPartialLineIgnored(s: string, partial: string)
    requires '\n' !in partial
    ensures CompleteLines(s + partial) == CompleteLines(s)
  {
    CompleteLinesAppend(s, partial);
    SplitPiecesHaveNoLineFeed(s);
    assert '\n' !in Tail(s);
    NoLineFeedConcat(Tail(s), partial);
    NoLineFeedNoLine(Tail(s) + partial);
  }

  /** `t` occurs somewhere in `s`. */
  predicate IsInfix(t: string, s: string)
  {
    exists i :: 0 <= i <= |s| && t <= s[i..]
  }

  lemma InfixOfConcat(a: string, t: string, b: string)
    ensures IsInfix(t, a + t + b)
  {
    assert (a + t + b)[|a|..] == t + b;
  }

  lemma InfixOfSuffix(a: string, t: string)
    ensures IsInfix(t, a + t)
  {
    assert (a + t)[|a|..] == t;
  }

  lemma InfixTransitive(a: string, b: string, c: string)
    requires IsInfix(a, b) && IsInfix(b, c)
    ensures IsInfix(a, c)
  {
    var i :| 0 <= i <= |b| && a <= b[i..];
    var j :| 0 <= j <= |c| && b <= c[j..];
    forall k | 0 <= k < |a| ensures c[j + i + k] == a[k] {
      assert a[k] == b[i..][k] == b[i + k];
      assert b[i + k] == c[j..][i + k] == c[j + i + k];
    }
    assert a <= c[j + i..];
  }

  /** Every piece of a join occurs in it, and the first one starts it. */
  lemma {:induction false} JoinHasPiece(pieces: seq<string>, sep: string, k: nat)
    requires k < |pieces|
    ensures IsInfix(pieces[k], Join(pieces, sep))
    ensures k == 0 ==> pieces[0] <= Join(pieces, sep)
    decreases k
  {
    if |pieces| == 1 {
      assert Join(pieces, sep) == "" + pieces[0] + "";
      InfixOfConcat("", pieces[0], "");
    } else if k == 0 {
      assert Join(pieces, sep) == "" + pieces[0] + (sep + Join(pieces[1..], sep));
      InfixOfConcat("", pieces[0], sep + Join(pieces[1..], sep));
    } else {
      JoinHasPiece(pieces[1..], sep, k - 1);
      assert Join(pieces, sep) == pieces[0] + sep + Join(pieces[1..], sep) + "";
      InfixOfConcat(pieces[0] + sep, Join(pieces[1..], sep), "");
      InfixTransitive(pieces[k], Join(pieces[1..], sep), Join(pieces, sep));
    }
  }

  /** The characters `String.prototype.trim` removes: WhiteSpace and LineTerminator of ECMA-262. */
  predicate IsJsSpace(c: char)
  {
    c == '\t' || c == '\n' || c == '\U{B}' || c == '\U{C}' || c == '\r' || c == ' '
    || c == '\U{A0}' || c == '\U{1680}' || ('\U{2000}' <= c <= '\U{200A}')
    || c == '\U{2028}' || c == '\U{2029}' || c == '\U{202F}' || c == '\U{205F}'
    || c == '\U{3000}' || c == '\U{FEFF}'
  }

  function TrimStart(s: string): (r: string)
    ensures |r| <= |s| && s[|s| - |r|..] == r
    ensures r == [] || !IsJsSpace(r[0])
  {
    if s != [] && IsJsSpace(s[0]) then TrimStart(s[1..]) else s
  }

  function TrimEnd(s: string): (r: string)
    ensures r <= s
    ensures r == [] || !IsJsSpace(r[|r| - 1])
  {
    if s != [] && IsJsSpace(s[|s| - 1]) then TrimEnd(s[..|s| - 1]) else s
  }

  /** `s.trim()`. */
  function Trim(s: string): string
  {
    TrimEnd(TrimStart(s))
  }

  /** `trim` leaves no white space at either end and never lengthens the string. */
  lemma TrimStrips(s: string)
    ensures var r := Trim(s);
      |r| <= |s| && (r == [] || (!IsJsSpace(r[0]) && !IsJsSpace(r[|r| - 1])))
  {
  }

  /** A string that starts and ends with a non-space is left alone by `trim`. */
  lemma TrimmedFixed(s: string)
    requires s == [] || (!IsJsSpace(s[0]) && !IsJsSpace(s[|s| - 1]))
    ensures Trim(s) == s
  {
  }

  /** Decimal digits of a natural number, as `String(n)` prints it. */
  function NatToDecimal(n: nat): (r: string)
    ensures |r| >= 1
    ensures forall i :: 0 <= i < |r| ==> '0' <= r[i] <= '9'
  {
    var d := [('0' as int + n % 10) as char];
    if n < 10 then d else NatToDecimal(n / 10) + d
  }

  function IntToDecimal(n: int): (r: string)
    ensures r != []
    ensures (n < 0) == (r[0] == '-')
  {
    if n < 0 then "-" + NatToDecimal(-n) else NatToDecimal(n)
  }
}
