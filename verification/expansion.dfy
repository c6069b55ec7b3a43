/** Expansion of `$(NAME)` references. Strings are byte sequences, as in Go. */
module Expansion {

  type Byte = b: int | 0 <= b < 256

  type Bytes = seq<Byte>

  const OPERATOR: Byte := 0x24
  const OPENER: Byte := 0x28
  const CLOSER: Byte := 0x29

  function SyntaxWrap(input: Bytes): Bytes {
    [OPERATOR, OPENER] + input + [CLOSER]
  }

  /** The lookup of MappingFuncFor: the first map that has the name wins, else the reference stays. */
  function Lookup(contexts: seq<map<Bytes, Bytes>>, name: Bytes): Bytes {
    if contexts == [] then SyntaxWrap(name)
    else if name in contexts[0] then contexts[0][name]
    else Lookup(contexts[1..], name)
  }

  function MappingFuncFor(contexts: seq<map<Bytes, Bytes>>): Bytes -> Bytes {
    name => Lookup(contexts, name)
  }

  /** Go's conversion of a byte to a string, which is the UTF-8 encoding of that code point. */
  function ByteToString(b: Byte): Bytes {
    if b < 0x80 then [b] else [0xC0 + b / 0x40, 0x80 + b % 0x40]
  }

  // ----- Token semantics -----

  datatype Token =
    | Literal(b: Byte)         // a byte other than the operator
    | Escaped                  // $$
    | Reference(name: Bytes)   // $(name)
    | Unclosed                 // $( with no closer in the rest of the input
    | Bare(b: Byte)            // $ before some other byte
    | Trailing                 // $ as the last byte

  /** The bytes of the input that the token stands for. */
  function Source(t: Token): Bytes {
    match t
    case Literal(b) => [b]
    case Escaped => [OPERATOR, OPERATOR]
    case Reference(n) => SyntaxWrap(n)
    case Unclosed => [OPERATOR, OPENER]
    case Bare(b) => [OPERATOR, b]
    case Trailing => [OPERATOR]
  }

  /** What a token that is no reference expands to. */
  function Plain(t: Token): Bytes
    requires !t.Reference?
  {
    match t
    case Literal(b) => [b]
    case Escaped => [OPERATOR]
    case Unclosed => [OPERATOR, OPENER]
    case Bare(b) => [OPERATOR] + ByteToString(b)
    case Trailing => [OPERATOR]
  }

  function Rendered(t: Token, mapping: Bytes -> Bytes): Bytes {
    if t.Reference? then mapping(t.name) else Plain(t)
  }

  /** The position of the first closer, or the length. */
  function CloserAt(s: Bytes): (i: nat)
    ensures i <= |s| && (i < |s| ==> s[i] == CLOSER) && forall j | 0 <= j < i :: s[j] != CLOSER
  {
    if s == [] || s[0] == CLOSER then 0 else 1 + CloserAt(s[1..])
  }

  /** The token at the start of a non-empty input. */
  function First(s: Bytes): (t: Token)
    requires s != []
    ensures 0 < |Source(t)| <= |s| && s[..|Source(t)|] == Source(t)
  {
    if s[0] != OPERATOR then Literal(s[0])
    else if |s| == 1 then Trailing
    else if s[1] == OPERATOR then Escaped
    else if s[1] == OPENER then
      var i := CloserAt(s[2..]);
      if i < |s| - 2 then Reference(s[2..2 + i]) else Unclosed
    else Bare(s[1])
  }

  function Scan(s: Bytes): seq<Token>
    decreases |s|
  {
    if s == [] then [] else [First(s)] + Scan(s[|Source(First(s))|..])
  }

  function Sources(ts: seq<Token>): Bytes {
    if ts == [] then [] else Source(ts[0]) + Sources(ts[1..])
  }

  function Render(ts: seq<Token>, mapping: Bytes -> Bytes): Bytes {
    if ts == [] then [] else Rendered(ts[0], mapping) + Render(ts[1..], mapping)
  }

  /** The meaning of an input: its tokens, each rendered once; what the mapping returns is not scanned. */
  function Meaning(s: Bytes, mapping: Bytes -> Bytes): Bytes {
    Render(Scan(s), mapping)
  }

  lemma SourcesCons(t: Token, ts: seq<Token>)
    ensures Sources([t] + ts) == Source(t) + Sources(ts)
  {
    assert ([t] + ts)[1..] == ts;
  }

  lemma RenderCons(t: Token, ts: seq<Token>, mapping: Bytes -> Bytes)
    ensures Render([t] + ts, mapping) == Rendered(t, mapping) + Render(ts, mapping)
  {
    assert ([t] + ts)[1..] == ts;
  }

  /** Every byte of the input belongs to exactly one token. */
  lemma {:induction false} ScanConsumesAll(s: Bytes)
    ensures Sources(Scan(s)) == s
    decreases |s|
  {
    if s != [] {
      var t := First(s);
      var rest := s[|Source(t)|..];
      ScanConsumesAll(rest);
      SourcesCons(t, Scan(rest));
      Split(s, |Source(t)|);
    }
  }

  lemma Split(s: Bytes, n: nat)
    requires n <= |s|
    ensures s == s[..n] + s[n..]
  {
  }

  lemma MeaningUnfold(s: Bytes, t: Token, mapping: Bytes -> Bytes)
    requires s != [] && t == First(s)
    ensures Meaning(s, mapping) == Rendered(t, mapping) + Meaning(s[|Source(t)|..], mapping)
  {
    RenderCons(t, Scan(s[|Source(t)|..]), mapping);
  }

  // ----- The scanner -----

  method TryReadVariableName(input: Bytes) returns (read: Bytes, isVar: bool, advance: nat)
    requires input != []
    ensures var t := First([OPERATOR] + input);
            && 1 + advance == |Source(t)|
            && (isVar ==> t == Reference(read))
            && (!isVar ==> !t.Reference? && read == Plain(t))
  {
    var whole := [OPERATOR] + input;
    assert whole[1] == input[0] && whole[2..] == input[1..];
    if input[0] == OPERATOR {
      return input[0..1], false, 1;
    } else if input[0] == OPENER {
      for i := 1 to |input|
        invariant forall j | 1 <= j < i :: input[j] != CLOSER
      {
        if input[i] == CLOSER {
          FirstCloserIs(input[1..], i - 1);
          assert whole[2..2 + (i - 1)] == input[1..i];
          return input[1..i], true, i + 1;
        }
      }
      NoCloser(input[1..]);
      return [OPERATOR, OPENER], false, 1;
    } else {
      return [OPERATOR] + ByteToString(input[0]), false, 1;
    }
  }

  lemma FirstCloserIs(s: Bytes, i: nat)
    requires i < |s| && s[i] == CLOSER && forall j | 0 <= j < i :: s[j] != CLOSER
    ensures CloserAt(s) == i
  {
  }

  lemma NoCloser(s: Bytes)
    requires forall j | 0 <= j < |s| :: s[j] != CLOSER
    ensures CloserAt(s) == |s|
  {
  }

  /** The buffer holds the expansion of the input up to the checkpoint. */
  ghost predicate Written(input: Bytes, buf: Bytes, checkpoint: nat, mapping: Bytes -> Bytes) {
    checkpoint <= |input| && Meaning(input, mapping) == buf + Meaning(input[checkpoint..], mapping)
  }

  /** The cursor-and-checkpoint loop computes the meaning of its input. */
  method Expand(input: Bytes, mapping: Bytes -> Bytes) returns (result: Bytes)
    ensures result == Meaning(input, mapping)
  {
    var buf: Bytes := [];
    var checkpoint := 0;
    var cursor := 0;
    assert Written(input, buf, checkpoint, mapping) by { WrittenAtStart(input, mapping); }
    while cursor < |input|
      invariant 0 <= checkpoint <= cursor <= |input|
      invariant forall j | checkpoint <= j < cursor :: input[j] != OPERATOR || j + 1 == |input|
      invariant Written(input, buf, checkpoint, mapping)
    {
      if input[cursor] == OPERATOR && cursor + 1 < |input| {
        ghost var buf0, checkpoint0, cursor0 := buf, checkpoint, cursor;
        buf := buf + input[checkpoint..cursor];
        var read, isVar, advance := TryReadVariableName(input[cursor + 1..]);
        ghost var t := First([OPERATOR] + input[cursor + 1..]);
        if isVar {
          read := mapping(read);
        }
        buf := buf + read;
        cursor := cursor + advance;
        checkpoint := cursor + 1;
        LoopStep(input, buf0, checkpoint0, cursor0, t, buf, checkpoint, mapping);
      }
      cursor := cursor + 1;
    }
    result := buf + input[checkpoint..];
    assert result == Meaning(input, mapping) by { AllPlain(input[checkpoint..], mapping); }
  }

  lemma WrittenAtStart(input: Bytes, mapping: Bytes -> Bytes)
    ensures Written(input, [], 0, mapping)
  {
    assert input[0..] == input;
  }

  lemma LoopStep(input: Bytes, buf: Bytes, checkpoint: nat, cursor: nat, t: Token,
                 buf': Bytes, checkpoint': nat, mapping: Bytes -> Bytes)
    requires checkpoint <= cursor < |input| && forall j | checkpoint <= j < cursor :: input[j] != OPERATOR
    requires input[cursor] == OPERATOR && t == First([OPERATOR] + input[cursor + 1..])
    requires checkpoint' == cursor + |Source(t)|
    requires Written(input, buf, checkpoint, mapping)
    requires buf' == buf + input[checkpoint..cursor] + Rendered(t, mapping)
    ensures checkpoint' <= |input| && Written(input, buf', checkpoint', mapping)
  {
    OperatorInFront(input, cursor);
    StepMeaning(input, checkpoint, cursor, t, checkpoint', mapping);
    Reassociate(buf, input[checkpoint..cursor], Rendered(t, mapping), Meaning(input[checkpoint'..], mapping));
  }

  lemma OperatorInFront(s: Bytes, i: nat)
    requires i < |s| && s[i] == OPERATOR
    ensures [OPERATOR] + s[i + 1..] == s[i..]
  {
  }

  lemma Reassociate(a: Bytes, b: Bytes, c: Bytes, d: Bytes)
    ensures a + (b + (c + d)) == a + b + c + d
  {
  }

  /** One turn of the loop: the bytes since the checkpoint, then one token that starts with the operator. */
  lemma StepMeaning(input: Bytes, checkpoint: nat, cursor: nat, t: Token, next: nat, mapping: Bytes -> Bytes)
    requires checkpoint <= cursor < |input| && forall j | checkpoint <= j < cursor :: input[j] != OPERATOR
    requires t == First(input[cursor..]) && next == cursor + |Source(t)|
    ensures next <= |input|
    ensures Meaning(input[checkpoint..], mapping) ==
            input[checkpoint..cursor] + (Rendered(t, mapping) + Meaning(input[next..], mapping))
  {
    var rest := input[cursor..];
    assert Meaning(input[checkpoint..], mapping) == input[checkpoint..cursor] + Meaning(rest, mapping) by {
      PlainRun(input[checkpoint..], cursor - checkpoint, mapping);
      TakeOfDrop(input, checkpoint, cursor);
      DropDrop(input, checkpoint, cursor);
    }
    assert Meaning(rest, mapping) == Rendered(t, mapping) + Meaning(input[next..], mapping) by {
      MeaningUnfold(rest, t, mapping);
      DropDrop(input, cursor, next);
    }
  }

  lemma TakeOfDrop(s: Bytes, i: nat, j: nat)
    requires i <= j <= |s|
    ensures s[i..][..j - i] == s[i..j]
  {
  }

  /** Bytes other than the operator are copied. */
  lemma {:induction false} PlainRun(s: Bytes, n: nat, mapping: Bytes -> Bytes)
    requires n <= |s| && forall j | 0 <= j < n :: s[j] != OPERATOR
    ensures Meaning(s, mapping) == s[..n] + Meaning(s[n..], mapping)
    decreases n
  {
    if n == 0 {
      assert s[0..] == s && s[..0] == [];
    } else {
      MeaningUnfold(s, Literal(s[0]), mapping);
      PlainRun(s[1..], n - 1, mapping);
      DropDrop(s, 1, n);
      TakeCons(s, n, Meaning(s[n..], mapping));
    }
  }

  lemma DropDrop(s: Bytes, i: nat, j: nat)
    requires i <= j <= |s|
    ensures s[i..][j - i..] == s[j..]
  {
  }

  lemma TakeCons(s: Bytes, n: nat, rest: Bytes)
    requires 0 < n <= |s|
    ensures [s[0]] + (s[1..][..n - 1] + rest) == s[..n] + rest
  {
  }

  lemma AllPlain(s: Bytes, mapping: Bytes -> Bytes)
    requires forall j | 0 <= j < |s| :: s[j] != OPERATOR || j + 1 == |s|
    ensures Meaning(s, mapping) == s
  {
    if s != [] {
      PlainRun(s, |s| - 1, mapping);
      var last := s[|s| - 1..];
      MeaningUnfold(last, First(last), mapping);
      assert last[1..] == [];
      assert Meaning([], mapping) == [];
      Split(s, |s| - 1);
    }
  }
}
