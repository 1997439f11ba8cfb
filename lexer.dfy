/**
 * The tokenizer (parser/lexer.go): one left-to-right scan of the input
 * bytes.  `Scan` is the specification of the scan, one `NextStep` at a
 * time; `Lexer.Tokenize` is the loop of the source, proved equal to it.
 */
module Lexer {
  import opened Outcomes
  import opened CharUtil
  import opened Tokens

  /** The three inner scanning loops: over letters, digits, or up to a quote. */
  datatype Run = Letters | Digits | Unquoted

  predicate InRun(r: Run, c: char) {
    match r
    case Letters => IsLetter(c)
    case Digits => IsDigit(c)
    case Unquoted => !IsQuote(c)
  }

  /** Where a run starting at `i` ends: the first index not in the run. */
  function RunEnd(input: seq<Byte>, i: nat, r: Run): (e: nat)
    requires i <= |input|
    ensures i <= e <= |input|
    ensures forall k :: i <= k < e ==> InRun(r, input[k])
    ensures e == |input| || !InRun(r, input[e])
    decreases |input| - i
  {
    if i < |input| && InRun(r, input[i]) then RunEnd(input, i + 1, r) else i
  }

  /** The end of a run is determined by the two properties RunEnd promises. */
  lemma {:induction false} RunEndUnique(input: seq<Byte>, i: nat, r: Run, e: nat)
    requires i <= e <= |input|
    requires forall k :: i <= k < e ==> InRun(r, input[k])
    requires e == |input| || !InRun(r, input[e])
    ensures RunEnd(input, i, r) == e
    decreases e - i
  {
    if i < e {
      RunEndUnique(input, i + 1, r, e);
    }
  }

  /** What one turn of the outer loop does at a position. */
  datatype Step =
    | Emit(token: Token, next: nat)  // append a token, continue at next
    | Skip(next: nat)                // drop the byte (whitespace or unknown)
    | Unclosed                       // quoted literal without a closing quote
    | OperatorAtEnd                  // `input[pos+1]` read past the end

  /** The kind of a letter run: a connective is an OPERATOR. */
  function WordKind(value: string): TokenType {
    if IsConditionalOperator(value) then Operator else GetKeywordOrIdentifier(value)
  }

  /** A run of letters: a keyword, an identifier or a connective. */
  function WordAt(input: seq<Byte>, pos: nat): (s: Step)
    requires pos < |input| && IsLetter(input[pos])
    ensures s.Emit? && pos < s.next <= |input|
  {
    var e := RunEnd(input, pos, Letters);
    Emit(Token(WordKind(input[pos..e]), input[pos..e]), e)
  }

  /** A run of digits: a numeric literal. */
  function NumberAt(input: seq<Byte>, pos: nat): (s: Step)
    requires pos < |input| && IsDigit(input[pos])
    ensures s.Emit? && pos < s.next <= |input|
  {
    var e := RunEnd(input, pos, Digits);
    Emit(Token(Literal, input[pos..e]), e)
  }

  /** A quoted literal: the bytes up to the next quote of either kind. */
  function QuotedAt(input: seq<Byte>, pos: nat): (s: Step)
    requires pos < |input|
    ensures (s.Emit? && pos < s.next <= |input|) || s.Unclosed?
  {
    var e := RunEnd(input, pos + 1, Unquoted);
    if e < |input| then Emit(Token(Literal, input[pos + 1..e]), e + 1) else Unclosed
  }

  /** An operator of one or two bytes; the second read is unguarded. */
  function OperatorAt(input: seq<Byte>, pos: nat): (s: Step)
    requires pos < |input|
    ensures (s.Emit? && pos < s.next <= |input|) || s.OperatorAtEnd?
  {
    if pos + 1 >= |input| then OperatorAtEnd
    else if IsOperator(input[pos + 1]) then Emit(Token(Operator, [input[pos], input[pos + 1]]), pos + 2)
    else Emit(Token(Operator, [input[pos]]), pos + 1)
  }

  function NextStep(input: seq<Byte>, pos: nat): (s: Step)
    requires pos < |input|
    ensures (s.Emit? || s.Skip?) ==> pos < s.next <= |input|
  {
    var c := input[pos];
    if IsWhitespace(c) then Skip(pos + 1)
    else if IsLetter(c) then WordAt(input, pos)
    else if IsDigit(c) then NumberAt(input, pos)
    else if IsQuote(c) then QuotedAt(input, pos)
    else if IsOperator(c) then OperatorAt(input, pos)
    else if IsDelimiter(c) then Emit(Token(Delimiter, [c]), pos + 1)
    else if IsSymbol(c) then Emit(Token(Symbol, [c]), pos + 1)
    else Skip(pos + 1)
  }

  const UnclosedMessage: string := "unclosed string literal"

  /** The scan from `pos` with the tokens `acc` already produced. */
  function Scan(input: seq<Byte>, pos: nat, acc: seq<Token>): Outcome<seq<Token>>
    requires pos <= |input|
    decreases |input| - pos
  {
    if pos == |input| then Ok(acc)
    else
      match NextStep(input, pos)
      case Emit(t, next) => Scan(input, next, acc + [t])
      case Skip(next) => Scan(input, next, acc)
      case Unclosed => Err(UnclosedMessage)
      case OperatorAtEnd => Panic(IndexOutOfRange)
  }

  /** The result of tokenizing a whole input. */
  function Lex(input: seq<Byte>): Outcome<seq<Token>> {
    Scan(input, 0, [])
  }


  /** The scan over a step that appends a token. */
  lemma ScanEmit(input: seq<Byte>, pos: nat, acc: seq<Token>, t: Token, next: nat)
    requires pos < |input| && NextStep(input, pos) == Emit(t, next)
    ensures Scan(input, pos, acc) == Scan(input, next, acc + [t])
  {
  }

  /** The scan over a step that drops a byte. */
  lemma ScanSkip(input: seq<Byte>, pos: nat, acc: seq<Token>)
    requires pos < |input| && NextStep(input, pos) == Skip(pos + 1)
    ensures Scan(input, pos, acc) == Scan(input, pos + 1, acc)
  {
  }

  /** A run inside `a` ends at the same place when more input follows. */
  lemma RunEndConcat(a: seq<Byte>, b: seq<Byte>, i: nat, r: Run)
    requires i <= |a|
    requires RunEnd(a, i, r) < |a| || b == [] || !InRun(r, b[0])
    ensures RunEnd(a + b, i, r) == RunEnd(a, i, r)
  {
    var e := RunEnd(a, i, r);
    assert forall k :: i <= k < e ==> (a + b)[k] == a[k];
    RunEndUnique(a + b, i, r, e);
  }

  /** The input from `p1` in `in1` is the input from `p2` in `in2`. */
  predicate Agree(in1: seq<Byte>, p1: nat, in2: seq<Byte>, p2: nat) {
    p1 <= |in1| && p2 <= |in2| && |in1| - p1 == |in2| - p2
    && forall k :: p1 <= k < |in1| ==> in1[k] == in2[p2 + (k - p1)]
  }

  lemma AgreeLater(in1: seq<Byte>, p1: nat, in2: seq<Byte>, p2: nat, d: nat)
    requires Agree(in1, p1, in2, p2) && p1 + d <= |in1|
    ensures Agree(in1, p1 + d, in2, p2 + d)
  {
  }

  /** Runs over agreeing input have the same length. */
  lemma RunEndAgree(in1: seq<Byte>, i1: nat, in2: seq<Byte>, i2: nat, r: Run)
    requires Agree(in1, i1, in2, i2)
    ensures RunEnd(in1, i1, r) - i1 == RunEnd(in2, i2, r) - i2
  {
    var e2 := RunEnd(in2, i2, r);
    var e1 := i1 + (e2 - i2);
    forall k | i1 <= k < e1 ensures InRun(r, in1[k]) {
      assert in1[k] == in2[i2 + (k - i1)];
    }
    if e1 < |in1| {
      assert in1[e1] == in2[e2];
    }
    RunEndUnique(in1, i1, r, e1);
  }

  /** Slices of agreeing input of the same extent are equal. */
  lemma SliceAgree(in1: seq<Byte>, i1: nat, in2: seq<Byte>, i2: nat, n: nat)
    requires Agree(in1, i1, in2, i2) && i1 + n <= |in1|
    ensures in1[i1..i1 + n] == in2[i2..i2 + n]
  {
    var s1, s2 := in1[i1..i1 + n], in2[i2..i2 + n];
    forall k | 0 <= k < n ensures s1[k] == s2[k] {
      assert in1[i1 + k] == in2[i2 + (i1 + k - i1)];
    }
  }

  /** Steps over agreeing input emit the same token and advance alike. */
  predicate SameStep(s1: Step, p1: nat, s2: Step, p2: nat) {
    match s1
    case Emit(t, n1) => s2.Emit? && s2.token == t && n1 - p1 == s2.next - p2
    case Skip(n1) => s2.Skip? && n1 - p1 == s2.next - p2
    case Unclosed => s2.Unclosed?
    case OperatorAtEnd => s2.OperatorAtEnd?
  }

  lemma WordAgree(in1: seq<Byte>, p1: nat, in2: seq<Byte>, p2: nat)
    requires Agree(in1, p1, in2, p2) && p1 < |in1| && IsLetter(in1[p1])
    ensures in2[p2] == in1[p1]
    ensures SameStep(WordAt(in1, p1), p1, WordAt(in2, p2), p2)
  {
    assert in1[p1] == in2[p2];
    RunEndAgree(in1, p1, in2, p2, Letters);
    SliceAgree(in1, p1, in2, p2, RunEnd(in1, p1, Letters) - p1);
  }

  lemma NumberAgree(in1: seq<Byte>, p1: nat, in2: seq<Byte>, p2: nat)
    requires Agree(in1, p1, in2, p2) && p1 < |in1| && IsDigit(in1[p1])
    ensures in2[p2] == in1[p1]
    ensures SameStep(NumberAt(in1, p1), p1, NumberAt(in2, p2), p2)
  {
    assert in1[p1] == in2[p2];
    RunEndAgree(in1, p1, in2, p2, Digits);
    SliceAgree(in1, p1, in2, p2, RunEnd(in1, p1, Digits) - p1);
  }

  lemma QuotedAgree(in1: seq<Byte>, p1: nat, in2: seq<Byte>, p2: nat)
    requires Agree(in1, p1, in2, p2) && p1 < |in1|
    ensures SameStep(QuotedAt(in1, p1), p1, QuotedAt(in2, p2), p2)
  {
    AgreeLater(in1, p1, in2, p2, 1);
    RunEndAgree(in1, p1 + 1, in2, p2 + 1, Unquoted);
    var e1 := RunEnd(in1, p1 + 1, Unquoted);
    if e1 < |in1| {
      SliceAgree(in1, p1 + 1, in2, p2 + 1, e1 - (p1 + 1));
    }
  }

  lemma OperatorAgree(in1: seq<Byte>, p1: nat, in2: seq<Byte>, p2: nat)
    requires Agree(in1, p1, in2, p2) && p1 < |in1|
    ensures SameStep(OperatorAt(in1, p1), p1, OperatorAt(in2, p2), p2)
  {
    assert in1[p1] == in2[p2];
    if p1 + 1 < |in1| {
      assert in1[p1 + 1] == in2[p2 + (p1 + 1 - p1)];
    }
  }

  /** A step depends only on the input from its position on. */
  lemma NextStepAgree(in1: seq<Byte>, p1: nat, in2: seq<Byte>, p2: nat)
    requires Agree(in1, p1, in2, p2) && p1 < |in1|
    ensures SameStep(NextStep(in1, p1), p1, NextStep(in2, p2), p2)
  {
    var c := in1[p1];
    assert in1[p1] == in2[p2];
    if IsWhitespace(c) {
    } else if IsLetter(c) {
      WordAgree(in1, p1, in2, p2);
    } else if IsDigit(c) {
      NumberAgree(in1, p1, in2, p2);
    } else if IsQuote(c) {
      QuotedAgree(in1, p1, in2, p2);
    } else if IsOperator(c) {
      OperatorAgree(in1, p1, in2, p2);
    }
  }

  /** Two scans whose next steps emit the same token continue alike. */
  lemma EmitLockstep(in1: seq<Byte>, p1: nat, in2: seq<Byte>, p2: nat, acc: seq<Token>, t: Token, n1: nat, n2: nat)
    requires p1 < |in1| && NextStep(in1, p1) == Emit(t, n1)
    requires p2 < |in2| && NextStep(in2, p2) == Emit(t, n2)
    requires Scan(in1, n1, acc + [t]) == Scan(in2, n2, acc + [t])
    ensures Scan(in1, p1, acc) == Scan(in2, p2, acc)
  {
  }

  /** Two scans whose next steps drop a byte continue alike. */
  lemma SkipLockstep(in1: seq<Byte>, p1: nat, in2: seq<Byte>, p2: nat, acc: seq<Token>, n1: nat, n2: nat)
    requires p1 < |in1| && NextStep(in1, p1) == Skip(n1)
    requires p2 < |in2| && NextStep(in2, p2) == Skip(n2)
    requires Scan(in1, n1, acc) == Scan(in2, n2, acc)
    ensures Scan(in1, p1, acc) == Scan(in2, p2, acc)
  {
  }

  /** The scan depends only on the input from its position on. */
  lemma {:induction false} ScanAgree(in1: seq<Byte>, p1: nat, in2: seq<Byte>, p2: nat, acc: seq<Token>)
    requires Agree(in1, p1, in2, p2)
    ensures Scan(in1, p1, acc) == Scan(in2, p2, acc)
    decreases |in1| - p1
  {
    if p1 < |in1| {
      NextStepAgree(in1, p1, in2, p2);
      match NextStep(in1, p1)
      case Emit(t, n1) =>
        var n2 := NextStep(in2, p2).next;
        AgreeLater(in1, p1, in2, p2, n1 - p1);
        ScanAgree(in1, n1, in2, n2, acc + [t]);
        EmitLockstep(in1, p1, in2, p2, acc, t, n1, n2);
      case Skip(n1) =>
        var n2 := NextStep(in2, p2).next;
        AgreeLater(in1, p1, in2, p2, n1 - p1);
        ScanAgree(in1, n1, in2, n2, acc);
        SkipLockstep(in1, p1, in2, p2, acc, n1, n2);
      case Unclosed =>
      case OperatorAtEnd =>
    }
  }

  /** The input behind a prefix `x` agrees with `b` itself. */
  lemma AgreeBehind(x: seq<Byte>, b: seq<Byte>)
    ensures Agree(x + b, |x|, b, 0)
  {
    forall k | |x| <= k < |x + b| ensures (x + b)[k] == b[0 + (k - |x|)] {
    }
  }

  lemma WordStepConcat(a: seq<Byte>, b: seq<Byte>, pos: nat)
    requires pos < |a| && IsLetter(a[pos])
    requires b == [] || IsWhitespace(b[0])
    ensures NextStep(a + b, pos) == NextStep(a, pos)
  {
    var ab, e := a + b, RunEnd(a, pos, Letters);
    assert ab[pos] == a[pos];
    RunEndConcat(a, b, pos, Letters);
    assert ab[pos..e] == a[pos..e];
  }

  lemma NumberStepConcat(a: seq<Byte>, b: seq<Byte>, pos: nat)
    requires pos < |a| && IsDigit(a[pos])
    requires b == [] || IsWhitespace(b[0])
    ensures NextStep(a + b, pos) == NextStep(a, pos)
  {
    var ab, e := a + b, RunEnd(a, pos, Digits);
    assert ab[pos] == a[pos];
    RunEndConcat(a, b, pos, Digits);
    assert ab[pos..e] == a[pos..e];
  }

  lemma QuoteStepConcat(a: seq<Byte>, b: seq<Byte>, pos: nat)
    requires pos < |a| && IsQuote(a[pos])
    requires NextStep(a, pos).Emit?
    ensures NextStep(a + b, pos) == NextStep(a, pos)
  {
    var ab, e := a + b, RunEnd(a, pos + 1, Unquoted);
    assert ab[pos] == a[pos];
    RunEndConcat(a, b, pos + 1, Unquoted);
    assert ab[pos + 1..e] == a[pos + 1..e];
  }

  /** A step that stays inside `a` is unchanged when input after a blank follows. */
  lemma NextStepConcat(a: seq<Byte>, b: seq<Byte>, pos: nat)
    requires pos < |a|
    requires b == [] || IsWhitespace(b[0])
    requires NextStep(a, pos).Emit? || NextStep(a, pos).Skip?
    ensures NextStep(a + b, pos) == NextStep(a, pos)
  {
    var ab, c := a + b, a[pos];
    assert ab[pos] == c;
    if IsLetter(c) {
      WordStepConcat(a, b, pos);
    } else if IsDigit(c) {
      NumberStepConcat(a, b, pos);
    } else if IsQuote(c) {
      QuoteStepConcat(a, b, pos);
    } else if pos + 1 < |a| {
      assert ab[pos + 1] == a[pos + 1];
    }
  }

  /**
   * Tokenizing is compositional at a blank: on `a + b` where `b` starts with
   * whitespace, the scan yields the tokens of `a` and then those of `b`.
   */
  lemma {:induction false} ScanConcat(a: seq<Byte>, b: seq<Byte>, pos: nat, acc: seq<Token>)
    requires pos <= |a|
    requires Scan(a, pos, acc).Ok?
    requires b == [] || IsWhitespace(b[0])
    ensures Scan(a + b, pos, acc) == Scan(b, 0, Scan(a, pos, acc).value)
    decreases |a| - pos
  {
    if pos == |a| {
      AgreeBehind(a, b);
      ScanAgree(a + b, |a|, b, 0, acc);
    } else {
      var st := NextStep(a, pos);
      NextStepConcat(a, b, pos);
      match st
      case Emit(t, next) =>
        assert Scan(a + b, pos, acc) == Scan(a + b, next, acc + [t]) by {
          ScanEmit(a + b, pos, acc, t, next);
        }
        assert Scan(a, pos, acc) == Scan(a, next, acc + [t]) by {
          ScanEmit(a, pos, acc, t, next);
        }
        ScanConcat(a, b, next, acc + [t]);
      case Skip(next) =>
        assert Scan(a + b, pos, acc) == Scan(a + b, next, acc) by {
          ScanSkip(a + b, pos, acc);
        }
        assert Scan(a, pos, acc) == Scan(a, next, acc) by {
          ScanSkip(a, pos, acc);
        }
        ScanConcat(a, b, next, acc);
    }
  }

  /** `o` with the tokens `acc` put in front of its tokens. */
  function Prepend(acc: seq<Token>, o: Outcome<seq<Token>>): Outcome<seq<Token>> {
    if o.Ok? then Ok(acc + o.value) else o
  }

  /** The tokens already produced are carried through untouched. */
  lemma {:induction false} ScanAcc(input: seq<Byte>, pos: nat, acc: seq<Token>)
    requires pos <= |input|
    ensures Scan(input, pos, acc) == Prepend(acc, Scan(input, pos, []))
    decreases |input| - pos
  {
    if pos < |input| {
      match NextStep(input, pos)
      case Emit(t, next) =>
        ScanEmit(input, pos, acc, t, next);
        ScanEmit(input, pos, [], t, next);
        assert [] + [t] == [t];
        ScanAcc(input, next, acc + [t]);
        ScanAcc(input, next, [t]);
        var rest := Scan(input, next, []);
        if rest.Ok? {
          assert acc + [t] + rest.value == acc + ([t] + rest.value);
        }
      case Skip(next) =>
        ScanAcc(input, next, acc);
      case Unclosed =>
      case OperatorAtEnd =>
    } else {
      assert acc + [] == acc;
    }
  }

  /** Tokenizing two inputs joined at a blank yields both token lists in order. */
  lemma LexAppend(a: seq<Byte>, b: seq<Byte>, ta: seq<Token>, tb: seq<Token>)
    requires Lex(a) == Ok(ta) && Lex(b) == Ok(tb)
    requires b == [] || IsWhitespace(b[0])
    ensures Lex(a + b) == Ok(ta + tb)
  {
    ScanConcat(a, b, 0, []);
    ScanAcc(b, 0, ta);
  }

  /** A maximal run of letters becomes one token: a connective, a keyword or an identifier. */
  lemma WordStep(input: seq<Byte>, pos: nat, e: nat)
    requires pos < e <= |input|
    requires forall k :: pos <= k < e ==> IsLetter(input[k])
    requires e == |input| || !IsLetter(input[e])
    ensures NextStep(input, pos) == Emit(Token(WordKind(input[pos..e]), input[pos..e]), e)
    ensures WordKind(input[pos..e]) == Operator <==> input[pos..e] in {AND, OR}
    ensures WordKind(input[pos..e]) == Keyword <==> input[pos..e] in ReservedWords
  {
    RunEndUnique(input, pos, Letters, e);
  }

  /** A maximal run of digits becomes one LITERAL holding those digits. */
  lemma NumberStep(input: seq<Byte>, pos: nat, e: nat)
    requires pos < e <= |input|
    requires forall k :: pos <= k < e ==> IsDigit(input[k])
    requires e == |input| || !IsDigit(input[e])
    ensures NextStep(input, pos) == Emit(Token(Literal, input[pos..e]), e)
  {
    RunEndUnique(input, pos, Digits, e);
  }

  /**
   * A quote opens a literal that the next quote of either kind closes; the
   * token holds the text between them.  Without a closing quote the step fails.
   */
  lemma QuoteStep(input: seq<Byte>, pos: nat, e: nat)
    requires pos < e <= |input| && IsQuote(input[pos])
    requires forall k :: pos < k < e ==> !IsQuote(input[k])
    requires e == |input| || IsQuote(input[e])
    ensures e < |input| ==> NextStep(input, pos) == Emit(Token(Literal, input[pos + 1..e]), e + 1)
    ensures e == |input| ==> NextStep(input, pos) == Unclosed
  {
    RunEndUnique(input, pos + 1, Unquoted, e);
  }

  /** Scanning over a quoted literal that is never closed ends in the error. */
  lemma UnclosedFails(input: seq<Byte>, pos: nat, acc: seq<Token>)
    requires pos < |input| && IsQuote(input[pos])
    requires forall k :: pos < k < |input| ==> !IsQuote(input[k])
    ensures Scan(input, pos, acc) == Err(UnclosedMessage)
  {
    QuoteStep(input, pos, |input|);
  }

  /**
   * An operator byte and the next one, if that is an operator too, form one
   * OPERATOR; an operator byte at the very end reads past the input.
   */
  lemma OperatorStep(input: seq<Byte>, pos: nat)
    requires pos < |input| && IsOperator(input[pos])
    ensures pos + 1 == |input| ==> NextStep(input, pos) == OperatorAtEnd
    ensures pos + 1 < |input| && IsOperator(input[pos + 1]) ==>
      NextStep(input, pos) == Emit(Token(Operator, input[pos..pos + 2]), pos + 2)
    ensures pos + 1 < |input| && !IsOperator(input[pos + 1]) ==>
      NextStep(input, pos) == Emit(Token(Operator, input[pos..pos + 1]), pos + 1)
  {
    assert input[pos..pos + 1] == [input[pos]];
    if pos + 1 < |input| {
      assert input[pos..pos + 2] == [input[pos], input[pos + 1]];
    }
  }

  /**
   * A comma is a DELIMITER and a bracket or ";" a SYMBOL of one byte;
   * whitespace and every byte of no class that is not a quote are dropped.
   */
  lemma SingleByteStep(input: seq<Byte>, pos: nat)
    requires pos < |input|
    ensures IsDelimiter(input[pos]) ==> NextStep(input, pos) == Emit(Token(Delimiter, [input[pos]]), pos + 1)
    ensures IsSymbol(input[pos]) ==> NextStep(input, pos) == Emit(Token(Symbol, [input[pos]]), pos + 1)
    ensures IsWhitespace(input[pos]) ==> NextStep(input, pos) == Skip(pos + 1)
    ensures ClassCount(input[pos]) == 0 && !IsQuote(input[pos]) ==> NextStep(input, pos) == Skip(pos + 1)
  {
    ClassesDisjoint(input[pos]);
  }

  /**
   * One turn of the outer loop of Tokenize: classify the byte at `pos` and
   * run the inner scanning loop of its class.
   */
  method ScanToken(input: seq<Byte>, pos: nat) returns (s: Step)
    requires pos < |input|
    ensures s == NextStep(input, pos)
  {
    var ch := input[pos];
    if IsWhitespace(ch) {
      return Skip(pos + 1);
    }

    var i := pos;
    if IsLetter(ch) {
      while i < |input| && IsLetter(input[i])
        invariant pos <= i <= |input|
        invariant forall k :: pos <= k < i ==> IsLetter(input[k])
      {
        i := i + 1;
      }
      var value := input[pos..i];
      WordStep(input, pos, i);
      if IsConditionalOperator(value) {
        return Emit(Token(Operator, value), i);
      }
      var tokenType := GetKeywordOrIdentifier(value);
      return Emit(Token(tokenType, value), i);
    }

    if IsDigit(ch) {
      while i < |input| && IsDigit(input[i])
        invariant pos <= i <= |input|
        invariant forall k :: pos <= k < i ==> IsDigit(input[k])
      {
        i := i + 1;
      }
      NumberStep(input, pos, i);
      return Emit(Token(Literal, input[pos..i]), i);
    }

    if ch == '\'' || ch == '"' {
      var start := pos + 1;
      i := i + 1;
      while i < |input| && !(input[i] == '\'' || input[i] == '"')
        invariant start <= i <= |input|
        invariant forall k :: start <= k < i ==> !IsQuote(input[k])
      {
        i := i + 1;
      }
      QuoteStep(input, pos, i);
      if i < |input| && (input[i] == '\'' || input[i] == '"') {
        return Emit(Token(Literal, input[start..i]), i + 1);
      }
      return Unclosed;
    }

    if IsOperator(ch) {
      if pos + 1 >= |input| {
        // input[pos+1] is read past the end: Go panics here.
        return OperatorAtEnd;
      }
      var operator: seq<Byte> := [ch];
      if IsOperator(input[pos + 1]) {
        operator := operator + [input[pos + 1]];
        i := i + 1;
      }
      return Emit(Token(Operator, operator), i + 1);
    }

    if IsDelimiter(ch) {
      return Emit(Token(Delimiter, [ch]), pos + 1);
    }

    if IsSymbol(ch) {
      return Emit(Token(Symbol, [ch]), pos + 1);
    }

    return Skip(pos + 1);
  }

  class Lexer {
    var input: seq<Byte>

    /** InitLexer: a lexer with no input. */
    constructor Init()
      ensures input == []
    {
      input := [];
    }

    /** NewLexer. */
    constructor (input: seq<Byte>)
      ensures this.input == input
    {
      this.input := input;
    }

    /** SetInput; the returned error is always nil. */
    method SetInput(input: seq<Byte>) returns (err: Option<string>)
      modifies this
      ensures this.input == input && err == None
    {
      this.input := input;
      err := None;
    }

    method Tokenize() returns (r: Outcome<seq<Token>>)
      ensures r == Lex(input)
    {
      var tokens: seq<Token> := [];
      var input := this.input;
      var pos := 0;
      while pos < |input|
        invariant pos <= |input|
        invariant Scan(input, pos, tokens) == Lex(input)
        decreases |input| - pos
      {
        var step := ScanToken(input, pos);
        match step
        case Emit(t, next) =>
          tokens := tokens + [t];
          pos := next;
        case Skip(next) =>
          pos := next;
        case Unclosed =>
          return Err(UnclosedMessage);
        case OperatorAtEnd =>
          return Panic(IndexOutOfRange);
      }
      return Ok(tokens);
    }
  }
}
