/** Laws of the expansion language. */
module ExpansionLaws {
  import opened Expansion

  // ----- Expansion of a concatenation -----

  /** What follows the token cannot change it. */
  predicate Complete(t: Token) {
    !t.Unclosed? && !t.Trailing?
  }

  /** The scan of `a` meets neither a lone operator at the end nor a reference that is not closed. */
  predicate Closed(a: Bytes) {
    AllComplete(Scan(a))
  }

  predicate AllComplete(ts: seq<Token>) {
    forall i | 0 <= i < |ts| :: Complete(ts[i])
  }

  lemma ClosedTail(a: Bytes)
    requires a != []
    ensures Closed(a) <==> Complete(First(a)) && Closed(a[|Source(First(a))|..])
  {
    CompleteCons(First(a), Scan(a[|Source(First(a))|..]));
  }

  lemma CompleteCons(t: Token, ts: seq<Token>)
    ensures AllComplete([t] + ts) <==> Complete(t) && AllComplete(ts)
  {
    var all := [t] + ts;
    if AllComplete(all) {
      assert Complete(all[0]);
      forall i | 0 <= i < |ts|
        ensures Complete(ts[i])
      {
        assert ts[i] == all[i + 1];
      }
    }
  }

  lemma FirstOfAppend(a: Bytes, b: Bytes)
    requires a != [] && Complete(First(a))
    ensures First(a + b) == First(a)
  {
    if |a| >= 2 && a[0] == OPERATOR && a[1] == OPENER {
      var i := CloserAt(a[2..]);
      assert (a + b)[2..] == a[2..] + b;
      FirstCloserIs((a + b)[2..], i);
      assert (a + b)[2..2 + i] == a[2..2 + i];
    }
  }

  lemma {:induction false} ScanAppend(a: Bytes, b: Bytes)
    requires Closed(a)
    ensures Scan(a + b) == Scan(a) + Scan(b)
    decreases |a|
  {
    if a == [] {
      assert a + b == b;
    } else {
      var t := First(a);
      var rest := a[|Source(t)|..];
      assert Complete(t) && Closed(rest) by { ClosedTail(a); }
      FirstOfAppend(a, b);
      DropOfAppend(a, b, |Source(t)|);
      ScanAppend(rest, b);
      ConsAppend(t, Scan(rest), Scan(b));
    }
  }

  lemma DropOfAppend(a: Bytes, b: Bytes, n: nat)
    requires n <= |a|
    ensures (a + b)[n..] == a[n..] + b
  {
  }

  lemma ConsAppend(t: Token, x: seq<Token>, y: seq<Token>)
    ensures [t] + (x + y) == ([t] + x) + y
  {
  }

  lemma {:induction false} RenderAppend(x: seq<Token>, y: seq<Token>, mapping: Bytes -> Bytes)
    ensures Render(x + y, mapping) == Render(x, mapping) + Render(y, mapping)
    decreases |x|
  {
    if x == [] {
      assert x + y == y;
    } else {
      AppendCons(x, y);
      RenderCons(x[0], x[1..] + y, mapping);
      RenderAppend(x[1..], y, mapping);
      Regroup(Rendered(x[0], mapping), Render(x[1..], mapping), Render(y, mapping));
    }
  }

  lemma AppendCons(x: seq<Token>, y: seq<Token>)
    requires x != []
    ensures x + y == [x[0]] + (x[1..] + y)
  {
  }

  lemma Regroup(a: Bytes, b: Bytes, c: Bytes)
    ensures a + (b + c) == (a + b) + c
  {
  }

  lemma ExpandAppend(a: Bytes, b: Bytes, mapping: Bytes -> Bytes)
    requires Closed(a)
    ensures Meaning(a + b, mapping) == Meaning(a, mapping) + Meaning(b, mapping)
  {
    ScanAppend(a, b);
    RenderAppend(Scan(a), Scan(b), mapping);
  }

  /** An input that is not closed has a closed part followed by the offending token. */
  lemma {:induction false} OffendingSuffix(a: Bytes) returns (p: Bytes, q: Bytes)
    requires !Closed(a)
    ensures a == p + q && Closed(p) && q != [] && !Complete(First(q))
    decreases |a|
  {
    ClosedTail(a);
    var t := First(a);
    var n := |Source(t)|;
    if Complete(t) {
      var p', q' := OffendingSuffix(a[n..]);
      p, q := a[..n] + p', q';
      assert a == p + q by {
        Split(a, n);
        Regroup(a[..n], p', q');
      }
      assert Closed(p) by { ClosedPrefix(a, n, p'); }
    } else {
      p, q := [], a;
    }
  }

  lemma ClosedPrefix(a: Bytes, n: nat, p: Bytes)
    requires a != [] && Complete(First(a)) && n == |Source(First(a))| && Closed(p)
    ensures Closed(a[..n] + p)
  {
    var h := a[..n];
    FirstOfPrefix(a, n);
    SingleToken(h);
    assert Closed(h);
    ScanAppend(h, p);
  }

  /** A complete token is found again in the bytes it stands for. */
  lemma FirstOfPrefix(a: Bytes, n: nat)
    requires a != [] && Complete(First(a)) && n == |Source(First(a))|
    ensures a[..n] != [] && First(a[..n]) == First(a)
  {
    var t := First(a);
    if t.Reference? {
      var i := CloserAt(a[2..]);
      var h := a[..n];
      DropOfTake(a, n);
      FirstCloserIs(h[2..], i);
      assert h[2..2 + i] == a[2..2 + i];
    }
  }

  lemma DropOfTake(a: Bytes, n: nat)
    requires 2 <= n <= |a|
    ensures a[..n][2..] == a[2..][..n - 2]
  {
  }

  lemma SingleToken(a: Bytes)
    requires a != [] && |Source(First(a))| == |a|
    ensures Scan(a) == [First(a)]
  {
    assert a[|a|..] == [];
  }

  /** Exactly the closed inputs can be expanded independently of what follows them. */
  lemma ExpandAppendIffClosed(a: Bytes)
    ensures Closed(a) <==>
            forall b: Bytes, mapping: Bytes -> Bytes ::
              Meaning(a + b, mapping) == Meaning(a, mapping) + Meaning(b, mapping)
  {
    if Closed(a) {
      forall b: Bytes, mapping: Bytes -> Bytes
        ensures Meaning(a + b, mapping) == Meaning(a, mapping) + Meaning(b, mapping)
      {
        ExpandAppend(a, b, mapping);
      }
    } else {
      var p, q := OffendingSuffix(a);
      var b: Bytes := if First(q).Trailing? then [OPERATOR] else [CLOSER];
      var mapping: Bytes -> Bytes := _ => [];
      Interaction(q, b, mapping);
      ExpandAppend(p, q, mapping);
      ExpandAppend(p, q + b, mapping);
      Regroup(p, q, b);
      assert |Meaning(a + b, mapping)| < |Meaning(a, mapping) + Meaning(b, mapping)|;
    }
  }

  lemma Interaction(q: Bytes, b: Bytes, mapping: Bytes -> Bytes)
    requires q != [] && !Complete(First(q))
    requires b == if First(q).Trailing? then [OPERATOR] else [CLOSER]
    requires forall n :: mapping(n) == []
    ensures |Meaning(q + b, mapping)| < |Meaning(q, mapping)| + |Meaning(b, mapping)|
  {
    var whole := q + b;
    assert |Meaning(b, mapping)| >= 1 by { MeaningUnfold(b, First(b), mapping); }
    assert |Meaning(q, mapping)| >= 1 by { MeaningUnfold(q, First(q), mapping); }
    assert |Source(First(whole))| == |whole| && |Rendered(First(whole), mapping)| <= 1 by {
      if First(q).Trailing? {
        assert whole == [OPERATOR, OPERATOR];
      } else {
        ClosedByOne(q);
      }
    }
    SingleToken(whole);
    MeaningUnfold(whole, First(whole), mapping);
  }

  lemma ClosedByOne(q: Bytes)
    requires q != [] && First(q).Unclosed?
    ensures First(q + [CLOSER]) == Reference(q[2..])
  {
    var whole := q + [CLOSER];
    assert whole[2..] == q[2..] + [CLOSER];
    FirstCloserIs(whole[2..], |q| - 2);
    assert whole[2..|q|] == q[2..];
  }

  // ----- The equations that determine the expansion of every input -----

  /** Go's conversion of a byte to a string. */
  function Utf8(b: Byte): Bytes {
    if b < 0x80 then [b] else [0xC0 + b / 0x40, 0x80 + b % 0x40]
  }

  /** `$$` stands for `$`. */
  lemma EscapeEquation(s: Bytes, mapping: Bytes -> Bytes)
    ensures Meaning([0x24, 0x24] + s, mapping) == [0x24] + Meaning(s, mapping)
  {
    var whole := [0x24, 0x24] + s;
    assert First(whole) == Escaped && whole[2..] == s;
    MeaningUnfold(whole, Escaped, mapping);
  }

  /** Bytes other than `$` stand for themselves; so does a `$` at the end, and the empty input is empty. */
  lemma LiteralEquation(b: Byte, s: Bytes, mapping: Bytes -> Bytes)
    ensures b != 0x24 ==> Meaning([b] + s, mapping) == [b] + Meaning(s, mapping)
    ensures Meaning([0x24], mapping) == [0x24] && Meaning([], mapping) == []
  {
    var whole, lone: Bytes := [b] + s, [0x24];
    assert whole[1..] == s && lone[1..] == [] && First(lone) == Trailing;
    MeaningUnfold(whole, First(whole), mapping);
    MeaningUnfold(lone, Trailing, mapping);
    assert Meaning([], mapping) == [];
  }

  /** A reference stands for what the mapping gives for the name up to the first `)`. */
  lemma ReferenceEquation(x: Bytes, s: Bytes, mapping: Bytes -> Bytes)
    requires 0x29 !in x
    ensures Meaning([0x24, 0x28] + x + [0x29] + s, mapping) == mapping(x) + Meaning(s, mapping)
  {
    var head := [0x24, 0x28] + x + [0x29];
    assert head[2..] == x + [CLOSER];
    FirstCloserIs(head[2..], |x|);
    assert head[2..2 + |x|] == x;
    SingleToken(head);
    assert Closed(head);
    ExpandAppend(head, s, mapping);
    RenderCons(Reference(x), [], mapping);
  }

  /** `$(` without a `)` anywhere after it stands for itself, and what follows is expanded. */
  lemma UnclosedEquation(s: Bytes, mapping: Bytes -> Bytes)
    requires 0x29 !in s
    ensures Meaning([0x24, 0x28] + s, mapping) == [0x24, 0x28] + Meaning(s, mapping)
  {
    var whole := [0x24, 0x28] + s;
    assert whole[2..] == s;
    NoCloser(s);
    MeaningUnfold(whole, Unclosed, mapping);
  }

  /** `$` before any other byte stands for itself, and the byte for its encoding. */
  lemma BareEquation(b: Byte, s: Bytes, mapping: Bytes -> Bytes)
    requires b != 0x24 && b != 0x28
    ensures Meaning([0x24, b] + s, mapping) == [0x24] + Utf8(b) + Meaning(s, mapping)
  {
    var whole := [0x24, b] + s;
    assert whole[2..] == s;
    MeaningUnfold(whole, Bare(b), mapping);
  }

  // ----- Escaping -----

  function DoubleOperators(s: Bytes): Bytes {
    if s == [] then []
    else (if s[0] == OPERATOR then [OPERATOR, OPERATOR] else [s[0]]) + DoubleOperators(s[1..])
  }

  /** Doubling every operator protects any string from any mapping. */
  lemma {:induction false} EscapeRoundTrip(s: Bytes, mapping: Bytes -> Bytes)
    ensures Meaning(DoubleOperators(s), mapping) == s
    decreases |s|
  {
    if s != [] {
      var d := DoubleOperators(s);
      var t := if s[0] == OPERATOR then Escaped else Literal(s[0]);
      assert First(d) == t;
      assert d[|Source(t)|..] == DoubleOperators(s[1..]);
      MeaningUnfold(d, t, mapping);
      EscapeRoundTrip(s[1..], mapping);
      assert s == [s[0]] + s[1..];
    }
  }

  // ----- Identity -----

  lemma {:induction false} UndefinedStays(contexts: seq<map<Bytes, Bytes>>, name: Bytes)
    requires forall i | 0 <= i < |contexts| :: name !in contexts[i]
    ensures Lookup(contexts, name) == SyntaxWrap(name)
  {
    if contexts != [] {
      assert name !in contexts[0];
      UndefinedStays(contexts[1..], name);
    }
  }

  /** The token expands to itself when its reference is undefined. */
  predicate Faithful(t: Token) {
    !t.Escaped? && (t.Bare? ==> t.b < 0x80)
  }

  predicate AllFaithful(s: Bytes) {
    FaithfulTokens(Scan(s))
  }

  predicate FaithfulTokens(ts: seq<Token>) {
    forall i | 0 <= i < |ts| :: Faithful(ts[i])
  }

  lemma FaithfulTail(s: Bytes)
    requires s != []
    ensures AllFaithful(s) <==> Faithful(First(s)) && AllFaithful(s[|Source(First(s))|..])
  {
    FaithfulCons(First(s), Scan(s[|Source(First(s))|..]));
  }

  lemma FaithfulCons(t: Token, ts: seq<Token>)
    ensures FaithfulTokens([t] + ts) <==> Faithful(t) && FaithfulTokens(ts)
  {
    var all := [t] + ts;
    if FaithfulTokens(all) {
      assert Faithful(all[0]);
      forall i | 0 <= i < |ts|
        ensures Faithful(ts[i])
      {
        assert ts[i] == all[i + 1];
      }
    }
  }

  predicate AllOperators(p: Bytes) {
    forall i | 0 <= i < |p| :: p[i] == OPERATOR
  }

  /** Operators lost to escapes cannot be made up for later. */
  lemma {:induction false} OperatorsStayLost(s: Bytes, p: Bytes)
    requires p != [] && AllOperators(p)
    ensures Meaning(s, SyntaxWrap) != p + s
    decreases |s|
  {
    if s != [] {
      var t := First(s);
      var rest := s[|Source(t)|..];
      MeaningUnfold(s, t, SyntaxWrap);
      if t.Escaped? {
        OperatorsStayLost(rest, p[1..] + [OPERATOR, OPERATOR]);
        Split(s, 2);
        EscapeShifts(p, rest, Meaning(rest, SyntaxWrap));
      } else {
        HeadsDiffer(s, p, Rendered(t, SyntaxWrap), Meaning(rest, SyntaxWrap));
      }
    }
  }

  lemma EscapeShifts(p: Bytes, rest: Bytes, m: Bytes)
    requires p != [] && m != p[1..] + [OPERATOR, OPERATOR] + rest
    ensures [OPERATOR] + m != p + ([OPERATOR, OPERATOR] + rest)
  {
    assert (p + ([OPERATOR, OPERATOR] + rest))[1..] == p[1..] + [OPERATOR, OPERATOR] + rest;
    assert ([OPERATOR] + m)[1..] == m;
  }

  lemma BareShifts(b: Byte, rest: Bytes, m: Bytes)
    requires b >= 0x80 && [0x83] + m != rest
    ensures [OPERATOR] + ByteToString(b) + m != [OPERATOR, b] + rest
  {
    var x, y := [OPERATOR] + ByteToString(b) + m, [OPERATOR, b] + rest;
    assert y[1] == b && y[2..] == rest;
    if b == 0xC3 {
      assert x == [OPERATOR, 0xC3, 0x83] + m;
      assert x[2..] == [0x83] + m;
    } else {
      assert x[1] == ByteToString(b)[0] == 0xC0 + b / 0x40;
    }
  }

  lemma HeadsDiffer(s: Bytes, p: Bytes, r: Bytes, m: Bytes)
    requires s != [] && p != [] && AllOperators(p)
    requires !First(s).Escaped? && r == Rendered(First(s), SyntaxWrap)
    requires First(s).Trailing? ==> m == []
    ensures r + m != p + s
  {
    var t := First(s);
    if t.Literal? {
      assert (r + m)[0] != OPERATOR == (p + s)[0];
    } else if t.Trailing? {
      assert |r + m| < |p + s|;
    } else {
      assert (p + s)[1] == OPERATOR;
      assert (r + m)[1] == r[1] != OPERATOR;
    }
  }

  /** A continuation byte that slipped in cannot be absorbed later. */
  lemma {:induction false} ExtraByteStays(s: Bytes)
    ensures [0x83] + Meaning(s, SyntaxWrap) != s
    decreases |s|
  {
    if s != [] && s[0] == 0x83 {
      MeaningUnfold(s, Literal(0x83), SyntaxWrap);
      ExtraByteStays(s[1..]);
      var m := Meaning(s[1..], SyntaxWrap);
      assert s[1..] != [0x83] + m;
      assert ([0x83] + ([0x83] + m))[1..] == [0x83] + m;
    }
  }

  lemma {:induction false} FaithfulIsIdentity(s: Bytes)
    requires AllFaithful(s)
    ensures Meaning(s, SyntaxWrap) == s
    decreases |s|
  {
    if s != [] {
      var t := First(s);
      FaithfulTail(s);
      MeaningUnfold(s, t, SyntaxWrap);
      FaithfulIsIdentity(s[|Source(t)|..]);
      assert Rendered(t, SyntaxWrap) == Source(t);
      Split(s, |Source(t)|);
    }
  }

  lemma OneOperatorLess(rest: Bytes, m: Bytes)
    requires m != [OPERATOR] + rest
    ensures [OPERATOR] + m != [OPERATOR, OPERATOR] + rest
  {
    assert ([OPERATOR] + m)[1..] == m && ([OPERATOR, OPERATOR] + rest)[1..] == [OPERATOR] + rest;
  }

  lemma UnfaithfulHead(s: Bytes)
    requires s != [] && !Faithful(First(s))
    ensures Meaning(s, SyntaxWrap) != s
  {
    var t := First(s);
    var rest := s[|Source(t)|..];
    var m := Meaning(rest, SyntaxWrap);
    MeaningUnfold(s, t, SyntaxWrap);
    Split(s, |Source(t)|);
    if t.Escaped? {
      OperatorsStayLost(rest, [OPERATOR]);
      OneOperatorLess(rest, m);
    } else {
      ExtraByteStays(rest);
      BareShifts(t.b, rest, m);
    }
  }

  /** With no variable defined, expansion is the identity exactly on the inputs without an escape and without
      an operator before a byte outside ASCII. */
  lemma {:induction false} IdentityIffFaithful(s: Bytes)
    ensures Meaning(s, SyntaxWrap) == s <==> AllFaithful(s)
    decreases |s|
  {
    if AllFaithful(s) {
      FaithfulIsIdentity(s);
    } else if s != [] {
      var t := First(s);
      FaithfulTail(s);
      if Faithful(t) {
        var rest := s[|Source(t)|..];
        IdentityIffFaithful(rest);
        MeaningUnfold(s, t, SyntaxWrap);
        Split(s, |Source(t)|);
        assert Rendered(t, SyntaxWrap) == Source(t);
        assert (Source(t) + Meaning(rest, SyntaxWrap))[|Source(t)|..] == Meaning(rest, SyntaxWrap);
      } else {
        UnfaithfulHead(s);
      }
    }
  }

  /** A condition on the bytes that suffices: no two operators in a row, and only ASCII after an operator. */
  predicate PlainBytes(s: Bytes) {
    forall i | 0 <= i < |s| - 1 && s[i] == OPERATOR :: s[i + 1] != OPERATOR && s[i + 1] < 0x80
  }

  lemma {:induction false} PlainBytesAreKept(s: Bytes)
    requires PlainBytes(s)
    ensures AllFaithful(s) && Meaning(s, SyntaxWrap) == s
    decreases |s|
  {
    if s != [] {
      var n := |Source(First(s))|;
      PlainBytesDrop(s, n);
      PlainBytesAreKept(s[n..]);
      assert AllFaithful(s) by { FaithfulTail(s); }
    }
    FaithfulIsIdentity(s);
  }

  lemma PlainBytesDrop(s: Bytes, n: nat)
    requires PlainBytes(s) && n <= |s|
    ensures PlainBytes(s[n..])
  {
    var rest := s[n..];
    forall i | 0 <= i < |rest| - 1 && rest[i] == OPERATOR
      ensures rest[i + 1] != OPERATOR && rest[i + 1] < 0x80
    {
      assert rest[i] == s[n + i] && rest[i + 1] == s[n + i + 1];
    }
  }

  // ----- Mappings -----

  /** Expansion depends on the mapping only at the names that the input refers to. */
  lemma {:induction false} RenderCongruence(ts: seq<Token>, m1: Bytes -> Bytes, m2: Bytes -> Bytes)
    requires forall i | 0 <= i < |ts| && ts[i].Reference? :: m1(ts[i].name) == m2(ts[i].name)
    ensures Render(ts, m1) == Render(ts, m2)
    decreases |ts|
  {
    if ts != [] {
      RenderCongruence(ts[1..], m1, m2);
    }
  }

  /** A reference expands to what the mapping gives for its name. */
  lemma ReferenceExpands(x: Bytes, mapping: Bytes -> Bytes)
    requires CLOSER !in x
    ensures Meaning(SyntaxWrap(x), mapping) == mapping(x)
  {
    ReferenceEquation(x, [], mapping);
    assert SyntaxWrap(x) == [0x24, 0x28] + x + [0x29] + [];
  }

  /** The first map that has the name decides it. */
  lemma {:induction false} FirstMapDecides(contexts: seq<map<Bytes, Bytes>>, i: nat, name: Bytes)
    requires i < |contexts| && name in contexts[i] && forall j | 0 <= j < i :: name !in contexts[j]
    ensures Lookup(contexts, name) == contexts[i][name]
    decreases |contexts|
  {
    if i > 0 {
      FirstMapDecides(contexts[1..], i - 1, name);
    }
  }

  /** No map defines a name that the input refers to. */
  predicate NothingDefined(s: Bytes, contexts: seq<map<Bytes, Bytes>>) {
    forall i, j | 0 <= i < |Scan(s)| && 0 <= j < |contexts| && Scan(s)[i].Reference? :: Scan(s)[i].name !in contexts[j]
  }

  /** The identity law for the mappings that the program builds, the one over no maps at all among them. */
  lemma UndefinedIdentityIffFaithful(s: Bytes, contexts: seq<map<Bytes, Bytes>>)
    requires NothingDefined(s, contexts)
    ensures Meaning(s, MappingFuncFor(contexts)) == Meaning(s, SyntaxWrap)
    ensures Meaning(s, MappingFuncFor(contexts)) == s <==> AllFaithful(s)
  {
    var ts := Scan(s);
    forall i | 0 <= i < |ts| && ts[i].Reference?
      ensures MappingFuncFor(contexts)(ts[i].name) == SyntaxWrap(ts[i].name)
    {
      UndefinedStays(contexts, ts[i].name);
    }
    RenderCongruence(ts, MappingFuncFor(contexts), SyntaxWrap);
    IdentityIffFaithful(s);
  }
}
