/** The name clean-up step shared by addFile and addCarvedFileInfo
    (tsk3/auto/db_sqlite.cpp): a file name, and optionally an attribute name
    after a ':', are copied into a zero-filled buffer with every single quote
    doubled, so that the text can stand between the two quotes of an SQL text
    literal. */
module Names {
  import opened Wrappers

  const QUOTE: char := '\''
  const COLON: char := ':'
  const NUL: char := '\0'

  /** A C string as strlen sees it: the characters before the terminating NUL. */
  type CString = s: string | NUL !in s

  /** True when every character of s is a quote. */
  predicate AllQuotes(s: string) {
    forall k :: 0 <= k < |s| ==> s[k] == QUOTE
  }

  /** The number of quotes in s. */
  function Quotes(s: string): nat {
    if s == [] then 0 else (if s[0] == QUOTE then 1 else 0) + Quotes(s[1..])
  }

  /** What the clean-up loop writes for one input character. */
  function EscapeChar(c: char): string {
    if c == QUOTE then [QUOTE, QUOTE] else [c]
  }

  /** s with every quote doubled and every other character copied, in order. */
  function Escape(s: string): string {
    if s == [] then [] else EscapeChar(s[0]) + Escape(s[1..])
  }

  /** The value the SQL engine reads from the text between the quotes of a
      literal: two quotes in a row stand for one; a quote on its own closes the
      literal early, so the text is not the body of one literal (None). */
  function LiteralValue(body: string): Option<string>
    decreases |body|
  {
    if body == [] then Some([])
    else if body[0] != QUOTE then
      match LiteralValue(body[1..])
      case None => None
      case Some(v) => Some([body[0]] + v)
    else if |body| >= 2 && body[1] == QUOTE then
      match LiteralValue(body[2..])
      case None => None
      case Some(v) => Some([QUOTE] + v)
    else None
  }

  lemma {:induction false} EscapeLength(s: string)
    ensures |Escape(s)| == |s| + Quotes(s)
  {
    if s != [] {
      EscapeLength(s[1..]);
    }
  }

  lemma {:induction false} QuotesBound(s: string)
    ensures Quotes(s) <= |s|
    ensures Quotes(s) == |s| <==> AllQuotes(s)
  {
    if s != [] {
      QuotesBound(s[1..]);
      assert AllQuotes(s) <==> s[0] == QUOTE && AllQuotes(s[1..]) by {
        if s[0] == QUOTE && AllQuotes(s[1..]) {
          forall k | 0 <= k < |s| ensures s[k] == QUOTE {
            if k > 0 { assert s[k] == s[1..][k - 1]; }
          }
        }
        if AllQuotes(s) {
          forall k | 0 <= k < |s| - 1 ensures s[1..][k] == QUOTE {
            assert s[1..][k] == s[k + 1];
          }
        }
      }
    }
  }

  /** Escaping works character by character: it distributes over concatenation. */
  lemma {:induction false} EscapeAppend(a: string, b: string)
    ensures Escape(a + b) == Escape(a) + Escape(b)
  {
    if a == [] {
      assert a + b == b;
    } else {
      assert (a + b)[0] == a[0];
      assert (a + b)[1..] == a[1..] + b;
      EscapeAppend(a[1..], b);
    }
  }

  /** A name without quotes is copied verbatim. */
  lemma {:induction false} EscapeVerbatim(s: string)
    requires QUOTE !in s
    ensures Escape(s) == s
  {
    if s != [] {
      assert QUOTE !in s[1..] by {
        forall k | 0 <= k < |s| - 1 ensures s[1..][k] != QUOTE {
          assert s[1..][k] == s[k + 1];
        }
      }
      EscapeVerbatim(s[1..]);
    }
  }

  /** Escaping only adds quotes: any other character occurs in the escaped
      text exactly when it occurs in the input (so no NUL appears). */
  lemma {:induction false} EscapeKeepsOtherChars(s: string, c: char)
    requires c != QUOTE
    ensures c in Escape(s) <==> c in s
  {
    if s != [] {
      EscapeKeepsOtherChars(s[1..], c);
      assert s == [s[0]] + s[1..];
      assert c in EscapeChar(s[0]) <==> c == s[0];
    }
  }

  /** An escaped name is the body of one SQL literal, and the engine reads
      back exactly the name that was escaped. */
  lemma {:induction false} LiteralValueOfEscape(s: string)
    ensures LiteralValue(Escape(s)) == Some(s)
  {
    if s != [] {
      LiteralValueOfEscape(s[1..]);
      var e := Escape(s);
      assert e == EscapeChar(s[0]) + Escape(s[1..]);
      if s[0] == QUOTE {
        assert e[2..] == Escape(s[1..]);
      } else {
        assert e[1..] == Escape(s[1..]);
      }
      assert s == [s[0]] + s[1..];
    }
  }

  /** The converse: escaping is the only way to write a literal body for a
      given value, so a body that reads back as v is Escape(v). */
  lemma {:induction false} EscapeOfLiteralValue(body: string, v: string)
    requires LiteralValue(body) == Some(v)
    ensures Escape(v) == body
    decreases |body|
  {
    if body != [] {
      if body[0] != QUOTE {
        var w := LiteralValue(body[1..]).value;
        EscapeOfLiteralValue(body[1..], w);
        assert v == [body[0]] + w;
        assert v[1..] == w;
        assert body == [body[0]] + body[1..];
      } else {
        var w := LiteralValue(body[2..]).value;
        EscapeOfLiteralValue(body[2..], w);
        assert v == [QUOTE] + w;
        assert v[1..] == w;
        assert body == [QUOTE, QUOTE] + body[2..];
      }
    }
  }

  /** A name without quotes is its own literal body. */
  lemma LiteralValueVerbatim(s: string)
    requires QUOTE !in s
    ensures LiteralValue(s) == Some(s)
  {
    EscapeVerbatim(s);
    LiteralValueOfEscape(s);
  }

  /** O'Brien is written as O''Brien. */
  lemma EscapeExample()
    ensures Escape("O'Brien") == "O''Brien"
  {
    assert "O'Brien" == "O" + "'" + "Brien";
    EscapeAppend("O" + "'", "Brien");
    EscapeAppend("O", "'");
    EscapeVerbatim("O");
    EscapeVerbatim("Brien");
    assert Escape("'") == "''";
  }

  /** The name a file row stands for: the file name, then ':' and the
      attribute name when that is not empty. */
  function DisplayName(base: string, attrName: string): string {
    if |attrName| > 0 then base + [COLON] + attrName else base
  }

  /** The text the clean-up loops produce, which is put between the quotes of
      the INSERT statement: the escaped file name, then ':' and the escaped
      attribute name when that is not empty. */
  function DisplayLiteral(base: string, attrName: string): string {
    Escape(base) + (if |attrName| > 0 then [COLON] + Escape(attrName) else [])
  }

  /** The clean-up text is the escaped display name. */
  lemma DisplayLiteralIsEscaped(base: string, attrName: string)
    ensures DisplayLiteral(base, attrName) == Escape(DisplayName(base, attrName))
  {
    if |attrName| > 0 {
      EscapeAppend(base + [COLON], attrName);
      EscapeAppend(base, [COLON]);
      assert Escape([COLON]) == [COLON] + Escape([]);
    }
  }

  /** The clean-up text always reads back as the display name, and it
      contains no NUL when the inputs contain none. */
  lemma DisplayLiteralDecodes(base: string, attrName: string)
    ensures LiteralValue(DisplayLiteral(base, attrName)) == Some(DisplayName(base, attrName))
    ensures NUL !in base && NUL !in attrName ==> NUL !in DisplayLiteral(base, attrName)
  {
    var d := DisplayName(base, attrName);
    DisplayLiteralIsEscaped(base, attrName);
    LiteralValueOfEscape(d);
    EscapeKeepsOtherChars(d, NUL);
    if NUL !in base && NUL !in attrName {
      assert NUL !in d;
    }
  }

  /** How many characters the clean-up loops write. */
  function WrittenLength(base: string, attrName: string): nat {
    |base| + Quotes(base) + (if |attrName| > 0 then 1 + |attrName| + Quotes(attrName) else 0)
  }

  /** The buffer size addFile allocates: 2 * (len + attr_nlen) + 1. */
  function AllocationAsWritten(base: string, attrName: string): nat {
    2 * (|base| + |attrName|) + 1
  }

  /** The buffer size that leaves room for the ':' as well. */
  function Allocation(base: string, attrName: string): nat {
    AllocationAsWritten(base, attrName) + (if |attrName| > 0 then 1 else 0)
  }

  /** The writes always fit the buffer as allocated, but they fill it to the
      last byte, overwriting the terminator, exactly when the attribute name
      is not empty and the file name and the attribute name are all quotes. */
  lemma TerminatorLost(base: string, attrName: string)
    ensures WrittenLength(base, attrName) <= AllocationAsWritten(base, attrName)
    ensures WrittenLength(base, attrName) == AllocationAsWritten(base, attrName)
            <==> |attrName| > 0 && AllQuotes(base) && AllQuotes(attrName)
    ensures WrittenLength(base, attrName) < Allocation(base, attrName)
  {
    QuotesBound(base);
    QuotesBound(attrName);
  }

  /** The smallest input that shows it: the name ' with the attribute name '
      makes the loops write '' : '' into a buffer of five bytes. */
  lemma QuoteNamesFillBuffer()
    ensures WrittenLength("'", "'") == AllocationAsWritten("'", "'") == 5
    ensures DisplayLiteral("'", "'") == "'':''"
  {
    TerminatorLost("'", "'");
    assert AllQuotes("'");
  }

  /** One clean-up loop (addFile lines 545-554 and 560-569,
      addCarvedFileInfo lines 706-715): copy s into name from index j0 on,
      doubling each quote, while i < |s| and j < nlen. The precondition says how
      the callers place the loop in the buffer; it makes the guard j < nlen
      never stop the loop early. */
  method CopyEscaped(name: array<char>, s: CString, j0: nat, nlen: nat) returns (j: nat)
    requires j0 + 2 * |s| <= nlen + 1 && nlen < name.Length
    requires forall k :: j0 <= k < name.Length ==> name[k] == NUL
    modifies name
    ensures j == j0 + |Escape(s)| <= name.Length
    ensures name[..j] == old(name[..j0]) + Escape(s)
    ensures forall k :: j <= k < name.Length ==> name[k] == NUL
  {
    j := j0;
    var i := 0;
    while i < |s| && j < nlen
      invariant 0 <= i <= |s|
      invariant j0 <= j <= j0 + 2 * i
      invariant name[..j] == old(name[..j0]) + Escape(s[..i])
      invariant forall k :: j <= k < name.Length ==> name[k] == NUL
    {
      EscapeAppend(s[..i], [s[i]]);
      assert s[..i + 1] == s[..i] + [s[i]];
      if s[i] == QUOTE {
        name[j] := QUOTE;
        name[j + 1] := QUOTE;
        j := j + 2;
      } else {
        name[j] := s[i];
        j := j + 1;
      }
      i := i + 1;
    }
    assert i == |s|;
    assert s[..i] == s;
  }

  /** The clean-up step of addFile (lines 543-570), run on a buffer of at
      least nlen + 1 zeroed bytes, nlen = 2 * (len + attr_nlen): the file name,
      then, when attr_nlen > 0, a ':' and the attribute name. */
  method FillName(name: array<char>, base: CString, attrName: CString) returns (j: nat)
    requires name.Length >= 2 * (|base| + |attrName|) + 1
    requires forall k :: 0 <= k < name.Length ==> name[k] == NUL
    modifies name
    ensures j == WrittenLength(base, attrName) && j <= name.Length
    ensures name[..j] == DisplayLiteral(base, attrName)
    ensures forall k :: j <= k < name.Length ==> name[k] == NUL
  {
    var nlen := 2 * (|base| + |attrName|);
    EscapeLength(base);
    QuotesBound(base);
    j := CopyEscaped(name, base, 0, nlen);
    if |attrName| > 0 {
      name[j] := COLON;
      j := j + 1;
      ghost var head := name[..j];
      assert head == Escape(base) + [COLON];
      j := CopyEscaped(name, attrName, j, nlen);
      EscapeLength(attrName);
    }
  }

  /** addFile's clean-up step as written: the buffer has
      2 * (len + attr_nlen) + 1 bytes. The text is always the escaped display
      name, but a terminating NUL is left only when the writes stop short of
      the last byte. */
  method EscapeNameAsWritten(base: CString, attrName: CString) returns (name: array<char>, j: nat)
    ensures name.Length == 2 * (|base| + |attrName|) + 1
    ensures j <= name.Length && name[..j] == DisplayLiteral(base, attrName)
    ensures j < name.Length <==> !(|attrName| > 0 && AllQuotes(base) && AllQuotes(attrName))
    ensures j < name.Length ==> name[j] == NUL
  {
    name := new char[2 * (|base| + |attrName|) + 1](_ => NUL);
    j := FillName(name, base, attrName);
    TerminatorLost(base, attrName);
  }

  /** The clean-up step with room for the ':' (one more byte when there is an
      attribute name; for addCarvedFileInfo, which has none, this is the
      source's 2 * len + 1). The escaped display name is always followed by a
      NUL and contains none itself, so the C string read back is exactly it. */
  method EscapeName(base: CString, attrName: CString) returns (name: array<char>, j: nat)
    ensures name.Length == Allocation(base, attrName)
    ensures j < name.Length && name[j] == NUL
    ensures name[..j] == DisplayLiteral(base, attrName) && NUL !in name[..j]
  {
    name := new char[Allocation(base, attrName)](_ => NUL);
    j := FillName(name, base, attrName);
    TerminatorLost(base, attrName);
    DisplayLiteralDecodes(base, attrName);
  }
}
