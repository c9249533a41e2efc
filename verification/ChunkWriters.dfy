/** The appenders of the fast path, and how much room each of them reserves. */
module ChunkWriters {
  import opened Text
  import opened JsonText
  import opened JsonTokens
  import opened OpenAIChunk
  import opened ChunkLiterals
  import opened ChunkConstants
  import Seqs

  // ---- lengths ----

  /** Number of characters in the decimal form of a 64-bit integer. */
  method DecimalLen(v: int) returns (n: nat)
    requires -0x8000_0000_0000_0000 <= v < 0x8000_0000_0000_0000
    ensures n == |Decimal(v)|
  {
    if v == 0 {
      return 1;
    }
    n := 0;
    var rest := v;
    if rest < 0 {
      n := n + 1;
      // The smallest integer has no opposite in 64 bits.
      if rest == -0x8000_0000_0000_0000 {
        SmallestLen();
        return 20;
      }
      rest := -rest;
    }
    ghost var sign, all := n, rest;
    while rest > 0
      invariant 0 <= rest < 0x8000_0000_0000_0000
      invariant n + (if rest == 0 then 0 else |Digits(rest)|) == sign + |Digits(all)|
    {
      n := n + 1;
      rest := rest / 10;
    }
  }

  function Pow10(k: nat): nat { if k == 0 then 1 else 10 * Pow10(k - 1) }

  lemma {:induction false} DigitCount(n: nat, k: nat)
    requires Pow10(k) <= n < Pow10(k + 1)
    ensures |Digits(n)| == k + 1
  {
    if k > 0 {
      DigitCount(n / 10, k - 1);
    }
  }

  lemma SmallestLen()
    ensures |Decimal(-0x8000_0000_0000_0000)| == 20
  {
    assert Pow10(9) == 1_000_000_000;
    assert Pow10(18) == 1_000_000_000_000_000_000;
    DigitCount(0x8000_0000_0000_0000, 18);
  }

  lemma {:induction false} EscapeBytes(s: string)
    ensures Bytes(Escape(s)) >= Bytes(s)
  {
    if s != "" {
      EscapeBytes(s[1..]);
      BytesJoin(EscapeChar(s[0]), Escape(s[1..]));
      BytesJoin([s[0]], s[1..]);
      assert s == [s[0]] + s[1..];
      EscapeCharBytes(s[0]);
    }
  }

  lemma EscapeCharBytes(c: char)
    ensures Bytes(EscapeChar(c)) >= CharBytes(c) == Bytes([c])
  {
    assert [c][..0] == "";
    FormReads(c);
    var w := EscapeChar(c);
    if |w| == 6 {
      BytesJoin(w[..2], w[2..]);
      BytesJoin(w[2..4], w[4..]);
      assert w == w[..2] + w[2..] && w[2..] == w[2..4] + w[4..];
      PairBytes(w[..2]);
      PairBytes(w[2..4]);
      PairBytes(w[4..]);
    } else if |w| == 2 {
      PairBytes(w);
    }
  }

  lemma PairBytes(s: string)
    requires |s| == 2
    ensures Bytes(s) >= 2
  {
    assert s[..1][..0] == "";
  }

  lemma QuotedBytes(s: string)
    ensures Bytes("\"" + (s + "\"")) == Bytes(s) + 2
  {
    assert Bytes("\"") == 1 by { assert "\""[..0] == ""; }
    BytesJoin(s, "\"");
    BytesJoin("\"", s + "\"");
  }

  /** How much more room the literal of a message id takes than was reserved for it. */
  function Excess(id: string): nat {
    QuotedBytes(Escape(id));
    EscapeBytes(id);
    QuotedBytes(id);
    Bytes(IdLiteral(id)) - Bytes(id) - 2
  }

  /** An id that needs no encoding takes what was reserved. */
  lemma NoExcess(id: string)
    requires Raw(id)
    ensures Excess(id) == 0
  {
    QuotedBytes(id);
  }

  lemma {:induction false} AsciiBytes(s: string)
    requires forall i :: 0 <= i < |s| ==> s[i] < '\U{80}'
    ensures Bytes(s) == |s|
  {
    if s != "" { AsciiBytes(s[..|s| - 1]); }
  }

  lemma DecimalBytes(n: int)
    ensures Bytes(Decimal(n)) == |Decimal(n)|
  {
    AsciiBytes(Decimal(n));
  }

  lemma Bytes3(a: string, b: string, c: string)
    ensures Bytes(a + b + c) == Bytes(a) + Bytes(b) + Bytes(c)
  {
    BytesJoin(a + b, c);
    BytesJoin(a, b);
  }

  lemma PrefixBytes(w: Wire, id: string)
    requires w.id == IdLiteral(id)
    ensures Bytes(PrefixText(w)) == Bytes(IdPrefix) + Bytes(id) + 2 + Excess(id) + Bytes(ObjectCreated) + |Decimal(w.created)|
      + Bytes(ModelPrefix) + Bytes(w.model) + Bytes(ChoicesPrefix)
  {
    Bytes3(IdPrefix, w.id, ObjectCreated);
    Bytes3(IdPrefix + w.id + ObjectCreated, Decimal(w.created), ModelPrefix);
    Bytes3(IdPrefix + w.id + ObjectCreated + Decimal(w.created) + ModelPrefix, w.model, ChoicesPrefix);
    DecimalBytes(w.created);
    QuotedBytes(Escape(id));
    EscapeBytes(id);
    QuotedBytes(id);
  }

  // ---- appending ----

  const Empty := "\"\""

  predicate Int64(v: int) { -0x8000_0000_0000_0000 <= v < 0x8000_0000_0000_0000 }

  method EstimatePrefix(id: string, created: int, model: string) returns (n: nat)
    requires Int64(created)
    ensures n == Bytes(IdPrefix) + Bytes(id) + 2 + Bytes(ObjectCreated) + |Decimal(created)|
      + Bytes(ModelPrefix) + Bytes(if model == "" then Empty else model) + Bytes(ChoicesPrefix)
  {
    var modelLen := Bytes(model);
    if model == "" {
      modelLen := 2;
      QuotedBytes("");
      assert Empty == "\"" + ("" + "\"");
    }
    assert model != "" ==> modelLen == Bytes(model);
    var digits := DecimalLen(created);
    n := Bytes(IdPrefix) + Bytes(id) + 2 + Bytes(ObjectCreated) + digits + Bytes(ModelPrefix) + modelLen + Bytes(ChoicesPrefix);
  }

  method AppendPrefix(dst: string, id: string, created: int, model: string, ghost w: Wire) returns (out: string)
    requires w.id == IdLiteral(id) && w.created == created && w.model == if model == "" then Empty else model
    ensures out == dst + PrefixText(w)
  {
    out := dst + IdPrefix;
    out := AppendString(out, id);
    out := out + ObjectCreated;
    out := out + Decimal(created);
    out := out + ModelPrefix;
    if model != "" { out := out + model; } else { out := out + Empty; }
    out := out + ChoicesPrefix;
    Regrouped7(dst, IdPrefix, w.id, ObjectCreated, Decimal(created), ModelPrefix, w.model, ChoicesPrefix);
  }

  lemma Regrouped7(dst: string, a: string, b: string, c: string, d: string, e: string, f: string, g: string)
    ensures dst + a + b + c + d + e + f + g == dst + (a + b + c + d + e + f + g)
  {
  }

  /** The chunk was appended, and the room reserved for it was used up but for what the
      literal of the message id takes more. */
  ghost predicate Appended(dst: string, out: string, w: Wire, id: string, reserved: nat) {
    out == dst + Print(w) && Bytes(out) == Bytes(dst) + reserved + Excess(id)
  }

  lemma AppendedRest(dst: string, out: string, w: Wire, id: string, rest: string, reserved: nat)
    requires w.id == IdLiteral(id) && rest == RestText(w.delta, w.finish) && out == dst + PrefixText(w) + rest
    requires reserved + Excess(id) == Bytes(PrefixText(w)) + Bytes(rest)
    ensures Appended(dst, out, w, id, reserved)
  {
    PrintParts(w);
    Seqs.Assoc(dst, PrefixText(w), rest);
    Bytes3(dst, PrefixText(w), rest);
  }

  method AppendMessageStart(dst: string, id: string, created: int, model: string) returns (out: string, reserved: nat)
    requires Int64(created)
    ensures Appended(dst, out, Wire(IdLiteral(id), created, if model == "" then Empty else model, WireRole, None), id, reserved)
  {
    ghost var w := Wire(IdLiteral(id), created, if model == "" then Empty else model, WireRole, None);
    var prefix := EstimatePrefix(id, created, model);
    reserved := prefix + Bytes(MessageStartSuffix);
    out := AppendPrefix(dst, id, created, model, w);
    out := out + MessageStartSuffix;
    RoleRest();
    PrefixBytes(w, id);
    AppendedRest(dst, out, w, id, MessageStartSuffix, reserved);
  }

  /** A prefix, a literal and a suffix after the prefix of the chunk. */
  method AppendAround(dst: string, id: string, created: int, before: string, v: string, after: string, ghost w: Wire)
    returns (out: string, reserved: nat)
    requires Int64(created) && w.id == IdLiteral(id) && w.created == created && w.model == Empty
    requires RestText(w.delta, w.finish) == before + v + after
    ensures Appended(dst, out, w, id, reserved)
  {
    var prefix := EstimatePrefix(id, created, "");
    reserved := prefix + Bytes(before) + Bytes(v) + Bytes(after);
    out := AppendPrefix(dst, id, created, "", w);
    ghost var head := out;
    out := out + before;
    out := out + v;
    out := out + after;
    Regrouped3(head, before, v, after);
    Bytes3(before, v, after);
    PrefixBytes(w, id);
    AppendedRest(dst, out, w, id, before + v + after, reserved);
  }

  lemma Regrouped3(dst: string, a: string, b: string, c: string)
    ensures dst + a + b + c == dst + (a + b + c)
  {
  }

  method AppendText(dst: string, id: string, created: int, text: string) returns (out: string, reserved: nat)
    requires Int64(created)
    ensures Appended(dst, out, Wire(IdLiteral(id), created, Empty, WireContent(text), None), id, reserved)
  {
    ContentRest(text);
    out, reserved := AppendAround(dst, id, created, TextDeltaPrefix, text, ContentDeltaSuffix,
      Wire(IdLiteral(id), created, Empty, WireContent(text), None));
  }

  method AppendThinking(dst: string, id: string, created: int, thinking: string) returns (out: string, reserved: nat)
    requires Int64(created)
    ensures Appended(dst, out, Wire(IdLiteral(id), created, Empty, WireReasoning(thinking), None), id, reserved)
  {
    ReasoningRest(thinking);
    out, reserved := AppendAround(dst, id, created, ThinkingDeltaPrefix, thinking, ContentDeltaSuffix,
      Wire(IdLiteral(id), created, Empty, WireReasoning(thinking), None));
  }

  method AppendMessageDelta(dst: string, id: string, created: int, stopReason: string) returns (out: string, reserved: nat)
    requires Int64(created)
    ensures Appended(dst, out, Wire(IdLiteral(id), created, Empty, WireNothing, Some(stopReason)), id, reserved)
  {
    StopRest(stopReason);
    out, reserved := AppendAround(dst, id, created, MessageDeltaPrefix, stopReason, MessageDeltaSuffix,
      Wire(IdLiteral(id), created, Empty, WireNothing, Some(stopReason)));
  }

  method AppendToolArgs(dst: string, id: string, created: int, index: int, text: string) returns (out: string, reserved: nat)
    requires Int64(created) && Int64(index)
    ensures Appended(dst, out, Wire(IdLiteral(id), created, Empty, WireToolArguments(index, text), None), id, reserved)
  {
    ghost var w := Wire(IdLiteral(id), created, Empty, WireToolArguments(index, text), None);
    var prefix := EstimatePrefix(id, created, "");
    var digits := DecimalLen(index);
    reserved := prefix + Bytes(ToolIndexPrefix) + digits + Bytes(ToolArgsPrefix) + Bytes(text) + Bytes(ToolArgsSuffix);
    out := AppendPrefix(dst, id, created, "", w);
    ghost var head := out;
    out := out + ToolIndexPrefix;
    out := out + Decimal(index);
    out := out + ToolArgsPrefix;
    out := out + text;
    out := out + ToolArgsSuffix;
    ArgumentsRest(index, text);
    Grouped5(head, ToolIndexPrefix, Decimal(index), ToolArgsPrefix, text, ToolArgsSuffix);
    DecimalBytes(index);
    PrefixBytes(w, id);
    AppendedRest(dst, out, w, id, ToolIndexPrefix + Decimal(index) + ToolArgsPrefix + text + ToolArgsSuffix, reserved);
  }

  lemma Grouped5(dst: string, a: string, b: string, c: string, d: string, e: string)
    ensures dst + a + b + c + d + e == dst + (a + b + c + d + e)
    ensures Bytes(a + b + c + d + e) == Bytes(a) + Bytes(b) + Bytes(c) + Bytes(d) + Bytes(e)
  {
    Bytes3(a, b, c);
    Bytes3(a + b + c, d, e);
  }

  method AppendToolStart(dst: string, id: string, created: int, index: int, toolID: string, name: string) returns (out: string, reserved: nat)
    requires Int64(created) && Int64(index)
    ensures Appended(dst, out, Wire(IdLiteral(id), created, Empty, WireToolOpen(index, Some(toolID), name), None), id, reserved)
  {
    ghost var w := Wire(IdLiteral(id), created, Empty, WireToolOpen(index, Some(toolID), name), None);
    var prefix := EstimatePrefix(id, created, "");
    var digits := DecimalLen(index);
    reserved := prefix + Bytes(ToolIndexPrefix) + digits + Bytes(ToolStartPrefix) + Bytes(toolID)
      + Bytes(ToolStartNamePrefix) + Bytes(name) + Bytes(ToolStartSuffix);
    out := AppendPrefix(dst, id, created, "", w);
    ghost var head := out;
    out := out + ToolIndexPrefix;
    out := out + Decimal(index);
    out := out + ToolStartPrefix;
    out := out + toolID;
    out := out + ToolStartNamePrefix;
    out := out + name;
    out := out + ToolStartSuffix;
    OpenRest(index, toolID, name);
    Regrouped7(head, ToolIndexPrefix, Decimal(index), ToolStartPrefix, toolID, ToolStartNamePrefix, name, ToolStartSuffix);
    Bytes7(ToolIndexPrefix, Decimal(index), ToolStartPrefix, toolID, ToolStartNamePrefix, name, ToolStartSuffix);
    DecimalBytes(index);
    PrefixBytes(w, id);
    AppendedRest(dst, out, w, id,
      ToolIndexPrefix + Decimal(index) + ToolStartPrefix + toolID + ToolStartNamePrefix + name + ToolStartSuffix, reserved);
  }

  lemma Bytes7(a: string, b: string, c: string, d: string, e: string, f: string, g: string)
    ensures Bytes(a + b + c + d + e + f + g) == Bytes(a) + Bytes(b) + Bytes(c) + Bytes(d) + Bytes(e) + Bytes(f) + Bytes(g)
  {
    Bytes3(a, b, c);
    Bytes3(a + b + c, d, e);
    Bytes3(a + b + c + d + e, f, g);
  }
}
