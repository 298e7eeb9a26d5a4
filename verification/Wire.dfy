/**
  Records as the codec writes them: a schema lists the fields of a record in order, with the checks its decoder
  makes, and one encoder and one decoder serve every schema.
*/
module Wire {
  import opened Types
  import opened Coding
  import opened Sequences

  const MAX_RECORDS: nat := 0x10_0000

  datatype Schema =
    | Word(width: nat, limit: nat)                    // an unsigned word no greater than limit
    | Flag
    | Str
    | Record(fields: seq<Schema>)
    | List(elem: Schema, unique: bool)                // a u32 count and the items; `unique` rejects a repeated key
    | Checked(inner: Schema, rule: Value -> Option<ErrorCode>)

  datatype Value = Num(n: nat) | Bit(b: bool) | Chars(text: Text) | Tuple(items: seq<Value>)

  // The key of a list item is its first field.
  function Key(v: Value): Value {
    if v.Tuple? && v.items != [] then v.items[0] else v
  }

  predicate Repeats(v: Value, before: seq<Value>) {
    exists i :: 0 <= i < |before| && Key(before[i]) == Key(v)
  }

  ghost predicate DistinctKeys(vs: seq<Value>) {
    forall i, j :: 0 <= i < j < |vs| ==> Key(vs[i]) != Key(vs[j])
  }

  /** v has the shape of the schema and its numbers and lengths fit the source's integer types. */
  ghost predicate Shaped(sc: Schema, v: Value) {
    match sc
    case Word(k, _) => v.Num? && v.n < Pow256(k)
    case Flag => v.Bit?
    case Str => v.Chars? && |v.text| < U32_LIMIT
    case Record(fs) => v.Tuple? && |v.items| == |fs| && forall i :: 0 <= i < |fs| ==> Shaped(fs[i], v.items[i])
    case List(elem, _) => v.Tuple? && |v.items| < U32_LIMIT && forall i :: 0 <= i < |v.items| ==> Shaped(elem, v.items[i])
    case Checked(inner, _) => Shaped(inner, v)
  }

  /** The checks of the decoder.  `Bounds` are those a single field or length can fail (an enumeration's range,
      the string and the list bound); `Integrity` are the distinct keys and the rules. */
  datatype Checks = Bounds | Integrity

  ghost predicate Passes(which: Checks, sc: Schema, v: Value)
    requires Shaped(sc, v)
  {
    match sc
    case Word(_, limit) => which == Bounds ==> v.n <= limit
    case Flag => true
    case Str => which == Bounds ==> |v.text| <= MAX_STRING
    case Record(fs) => forall i :: 0 <= i < |fs| ==> Passes(which, fs[i], v.items[i])
    case List(elem, unique) =>
      && (forall i :: 0 <= i < |v.items| ==> Passes(which, elem, v.items[i]))
      && (if which == Bounds then |v.items| <= MAX_RECORDS else unique ==> DistinctKeys(v.items))
    case Checked(inner, rule) => Passes(which, inner, v) && (which == Integrity ==> rule(v).None?)
  }

  ghost predicate Fits(sc: Schema, v: Value) {
    Shaped(sc, v) && Passes(Bounds, sc, v) && Passes(Integrity, sc, v)
  }

  // --- encoding -------------------------------------------------------------------------------

  function Enc(sc: Schema, v: Value): seq<Byte>
    decreases sc, 0, v
  {
    match sc
    case Word(k, _) => if v.Num? then Le(v.n, k) else []
    case Flag => if v.Bit? then EncBool(v.b) else []
    case Str => if v.Chars? then EncText(v.text) else []
    case Record(fs) => if v.Tuple? then EncAll(fs, v.items) else []
    case List(elem, _) => if v.Tuple? then Le(|v.items| % U32_LIMIT, 4) + EncItems(elem, v.items) else []
    case Checked(inner, _) => Enc(inner, v)
  }

  function EncAll(fs: seq<Schema>, vs: seq<Value>): seq<Byte>
    decreases fs, 0, vs
  {
    if fs == [] || vs == [] then [] else Enc(fs[0], vs[0]) + EncAll(fs[1..], vs[1..])
  }

  function EncItems(elem: Schema, vs: seq<Value>): seq<Byte>
    decreases elem, 1, vs
  {
    if vs == [] then [] else Enc(elem, vs[0]) + EncItems(elem, vs[1..])
  }

  // --- decoding -------------------------------------------------------------------------------

  function Dec(sc: Schema, s: seq<Byte>): Parse<Value>
    decreases sc, 0
  {
    match sc
    case Word(k, limit) =>
      (match GetWord(s, k)
       case Err(e) => Err(e)
       case Ok((n, rest)) => if n > limit then Err(Corruption) else Ok((Num(n), rest)))
    case Flag =>
      (match GetWord(s, 1)
       case Err(e) => Err(e)
       case Ok((n, rest)) => Ok((Bit(n != 0), rest)))
    case Str =>
      (match GetText(s)
       case Err(e) => Err(e)
       case Ok((t, rest)) => Ok((Chars(t), rest)))
    case Record(fs) =>
      (match DecAll(fs, s)
       case Err(e) => Err(e)
       case Ok((vs, rest)) => Ok((Tuple(vs), rest)))
    case List(elem, unique) =>
      (match GetWord(s, 4)
       case Err(e) => Err(e)
       case Ok((n, rest)) =>
         if n > MAX_RECORDS then Err(OversizedFrame)
         else
           match DecItems(elem, unique, n, [], rest)
           case Err(e) => Err(e)
           case Ok((vs, rest)) => Ok((Tuple(vs), rest)))
    case Checked(inner, rule) =>
      (match Dec(inner, s)
       case Err(e) => Err(e)
       case Ok((v, rest)) => if rule(v).Some? then Err(rule(v).value) else Ok((v, rest)))
  }

  function DecAll(fs: seq<Schema>, s: seq<Byte>): Parse<seq<Value>>
    decreases fs, 0
  {
    if fs == [] then Ok(([], s))
    else
      match Dec(fs[0], s)
      case Err(e) => Err(e)
      case Ok((v, rest)) =>
        match DecAll(fs[1..], rest)
        case Err(e) => Err(e)
        case Ok((vs, rest)) => Ok(([v] + vs, rest))
  }

  function DecItems(elem: Schema, unique: bool, n: nat, before: seq<Value>, s: seq<Byte>): Parse<seq<Value>>
    decreases elem, 1, n
  {
    if n == 0 then Ok((before, s))
    else
      match Dec(elem, s)
      case Err(e) => Err(e)
      case Ok((v, rest)) =>
        if unique && Repeats(v, before) then Err(Corruption) else DecItems(elem, unique, n - 1, before + [v], rest)
  }

  // --- what the decoder answers ---------------------------------------------------------------

  /** A word above its limit is corrupt; too few bytes are a truncation. */
  lemma WordAnswers(k: nat, limit: nat, n: nat, rest: seq<Byte>)
    requires n < Pow256(k)
    ensures Dec(Word(k, limit), Le(n, k) + rest) == if n <= limit then Ok((Num(n), rest)) else Err(Corruption)
    ensures forall s: seq<Byte> :: |s| < k ==> Dec(Word(k, limit), s) == Err(Truncation)
  {
    WordRoundTrip(n, k, rest);
  }

  /** Any byte but 0 reads as true. */
  lemma FlagAnswers(b: Byte, rest: seq<Byte>)
    ensures Dec(Flag, [b] + rest) == Ok((Bit(b > 0), rest)) && Dec(Flag, []) == Err(Truncation)
  {
    Widths();
    WordRoundTrip(b, 1, rest);
    assert Le(b, 1) == [b];
  }

  /** A string or a list above 2^20 is oversized, whatever follows. */
  lemma SizeAnswers(elem: Schema, unique: bool, n: nat, rest: seq<Byte>)
    requires 1024 * 1024 < n < U32_LIMIT
    ensures Dec(Str, Le(n, 4) + rest) == Err(OversizedFrame)
    ensures Dec(List(elem, unique), Le(n, 4) + rest) == Err(OversizedFrame)
  {
    Widths();
    WordRoundTrip(n, 4, rest);
  }

  // --- what the decoder accepts ---------------------------------------------------------------

  ghost predicate AllShaped(fs: seq<Schema>, vs: seq<Value>) {
    |vs| == |fs| && forall i :: 0 <= i < |fs| ==> Shaped(fs[i], vs[i])
  }

  ghost predicate AllFit(fs: seq<Schema>, vs: seq<Value>) {
    |vs| == |fs| && forall i :: 0 <= i < |fs| ==> Fits(fs[i], vs[i])
  }

  ghost predicate ItemsFit(elem: Schema, vs: seq<Value>) {
    forall i :: 0 <= i < |vs| ==> Fits(elem, vs[i])
  }

  /** Every encoded value is decoded back, with the rest of the input untouched, exactly when it passes the
      checks; otherwise the decoder raises. */
  lemma {:induction false} RoundTrip(sc: Schema, v: Value, rest: seq<Byte>)
    requires Shaped(sc, v)
    ensures if Fits(sc, v) then Dec(sc, Enc(sc, v) + rest) == Ok((v, rest)) else Dec(sc, Enc(sc, v) + rest).Err?
    decreases sc, 0
  {
    match sc
    case Word(k, _) => WordRoundTrip(v.n, k, rest);
    case Flag =>
      Widths();
      assert EncBool(v.b) == Le(if v.b then 1 else 0, 1);
      WordRoundTrip(if v.b then 1 else 0, 1, rest);
    case Str => TextRoundTrip(v.text, rest);
    case Record(fs) => AllRoundTrip(fs, v.items, rest);
    case List(elem, unique) => ListRoundTrip(elem, unique, v, rest);
    case Checked(inner, _) => RoundTrip(inner, v, rest);
  }

  lemma {:induction false} ListRoundTrip(elem: Schema, unique: bool, v: Value, rest: seq<Byte>)
    requires Shaped(List(elem, unique), v)
    ensures var sc := List(elem, unique);
      if Fits(sc, v) then Dec(sc, Enc(sc, v) + rest) == Ok((v, rest)) else Dec(sc, Enc(sc, v) + rest).Err?
    decreases elem, 2
  {
    CountRoundTrip(|v.items|, EncItems(elem, v.items), rest);
    ItemsRoundTrip(elem, unique, [], v.items, rest);
    assert [] + v.items == v.items;
  }

  lemma CountRoundTrip(n: nat, body: seq<Byte>, rest: seq<Byte>)
    requires n < U32_LIMIT
    ensures GetWord(Le(n % U32_LIMIT, 4) + body + rest, 4) == Ok((n, body + rest))
  {
    Widths();
    WordRoundTrip(n, 4, body + rest);
    Associative(Le(n, 4), body, rest);
  }

  lemma {:induction false} AllRoundTrip(fs: seq<Schema>, vs: seq<Value>, rest: seq<Byte>)
    requires AllShaped(fs, vs)
    ensures if AllFit(fs, vs) then DecAll(fs, EncAll(fs, vs) + rest) == Ok((vs, rest)) else DecAll(fs, EncAll(fs, vs) + rest).Err?
    decreases fs, 0
  {
    if fs != [] {
      var tail := EncAll(fs[1..], vs[1..]);
      assert EncAll(fs, vs) + rest == Enc(fs[0], vs[0]) + (tail + rest);
      RoundTrip(fs[0], vs[0], tail + rest);
      AllRoundTrip(fs[1..], vs[1..], rest);
      assert vs == [vs[0]] + vs[1..];
      FieldsSplit(fs, vs);
    } else {
      assert [] + rest == rest;
    }
  }

  lemma FieldsSplit(fs: seq<Schema>, vs: seq<Value>)
    requires fs != [] && |vs| == |fs|
    ensures AllFit(fs, vs) <==> Fits(fs[0], vs[0]) && AllFit(fs[1..], vs[1..])
    ensures AllShaped(fs, vs) <==> Shaped(fs[0], vs[0]) && AllShaped(fs[1..], vs[1..])
  {
    assert forall i :: 0 < i < |fs| ==> fs[i] == fs[1..][i - 1] && vs[i] == vs[1..][i - 1];
  }

  lemma {:induction false} ItemsRoundTrip(elem: Schema, unique: bool, before: seq<Value>, vs: seq<Value>, rest: seq<Byte>)
    requires forall i :: 0 <= i < |vs| ==> Shaped(elem, vs[i])
    requires unique ==> DistinctKeys(before)
    ensures var parsed := DecItems(elem, unique, |vs|, before, EncItems(elem, vs) + rest);
      if ItemsFit(elem, vs) && (unique ==> DistinctKeys(before + vs)) then parsed == Ok((before + vs, rest)) else parsed.Err?
    decreases elem, 1, |vs|
  {
    if vs != [] {
      var v, tail := vs[0], EncItems(elem, vs[1..]);
      assert EncItems(elem, vs) + rest == Enc(elem, v) + (tail + rest);
      RoundTrip(elem, v, tail + rest);
      RepeatSpoils(before, vs);
      if !(unique && Repeats(v, before)) { ItemsRoundTrip(elem, unique, before + [v], vs[1..], rest); }
      assert before + [v] + vs[1..] == before + vs;
      ItemsSplit(elem, vs);
    } else {
      assert [] + rest == rest && before + [] == before;
    }
  }

  lemma RepeatSpoils(before: seq<Value>, vs: seq<Value>)
    requires vs != []
    ensures Repeats(vs[0], before) ==> !DistinctKeys(before + vs)
    ensures DistinctKeys(before) && !Repeats(vs[0], before) ==> DistinctKeys(before + [vs[0]])
  {
    if Repeats(vs[0], before) {
      var i :| 0 <= i < |before| && Key(before[i]) == Key(vs[0]);
      assert (before + vs)[i] == before[i] && (before + vs)[|before|] == vs[0];
    }
  }

  lemma ItemsSplit(elem: Schema, vs: seq<Value>)
    requires vs != []
    ensures ItemsFit(elem, vs) <==> Fits(elem, vs[0]) && ItemsFit(elem, vs[1..])
  {
    assert forall i :: 0 < i < |vs| ==> vs[i] == vs[1..][i - 1];
  }

  /** Whatever bytes it is given, the decoder only produces values that pass the checks, having consumed exactly
      as many bytes as their encoding has. */
  lemma {:induction false} DecSound(sc: Schema, s: seq<Byte>)
    ensures Dec(sc, s).Ok? ==>
      var (v, rest) := Dec(sc, s).value;
      Fits(sc, v) && |Enc(sc, v)| + |rest| == |s|
    decreases sc, 0
  {
    if Dec(sc, s).Ok? {
      match sc
      case Word(k, _) => LeOfUnLe(s[..k]);
      case Flag =>
      case Str => Widths();
      case Record(fs) => AllSound(fs, s);
      case List(elem, unique) => ItemsSound(elem, unique, GetWord(s, 4).value.0, [], s[4..]);
      case Checked(inner, _) => DecSound(inner, s);
    }
  }

  lemma {:induction false} AllSound(fs: seq<Schema>, s: seq<Byte>)
    ensures DecAll(fs, s).Ok? ==>
      var (vs, rest) := DecAll(fs, s).value;
      AllFit(fs, vs) && |EncAll(fs, vs)| + |rest| == |s|
    decreases fs, 0
  {
    if fs != [] && DecAll(fs, s).Ok? {
      DecSound(fs[0], s);
      var (v, rest) := Dec(fs[0], s).value;
      AllSound(fs[1..], rest);
      var vs := DecAll(fs, s).value.0;
      assert vs[0] == v && vs[1..] == DecAll(fs[1..], rest).value.0;
      FieldsSplit(fs, vs);
    }
  }

  lemma {:induction false} ItemsSound(elem: Schema, unique: bool, n: nat, before: seq<Value>, s: seq<Byte>)
    requires unique ==> DistinctKeys(before)
    ensures DecItems(elem, unique, n, before, s).Ok? ==>
      var (vs, rest) := DecItems(elem, unique, n, before, s).value;
      && |vs| == |before| + n && vs[..|before|] == before
      && ItemsFit(elem, vs[|before|..]) && (unique ==> DistinctKeys(vs))
      && |EncItems(elem, vs[|before|..])| + |rest| == |s|
    decreases elem, 1, n
  {
    if n > 0 && DecItems(elem, unique, n, before, s).Ok? {
      DecSound(elem, s);
      var (v, rest) := Dec(elem, s).value;
      RepeatSpoils(before, [v]);
      ItemsSound(elem, unique, n - 1, before + [v], rest);
      var vs := DecItems(elem, unique, n, before, s).value.0;
      var b := |before|;
      assert vs[..b + 1] == before + [v];
      assert vs[b] == vs[..b + 1][b] == v;
      assert vs[..b] == vs[..b + 1][..b];
      assert vs[b..][0] == v && vs[b..][1..] == vs[b + 1..];
      ItemsSplit(elem, vs[b..]);
    }
  }

  // --- one encoding per value, but for booleans -----------------------------------------------

  /** Every boolean that the decoder reads on its way is the byte 0 or 1. */
  predicate PlainFlags(sc: Schema, s: seq<Byte>)
    decreases sc, 0
  {
    match sc
    case Flag => s != [] && s[0] <= 1
    case Record(fs) => PlainAll(fs, s)
    case List(elem, _) => (match GetWord(s, 4) case Ok((n, rest)) => PlainItems(elem, n, rest) case Err(_) => false)
    case Checked(inner, _) => PlainFlags(inner, s)
    case _ => true
  }

  predicate PlainAll(fs: seq<Schema>, s: seq<Byte>)
    decreases fs, 0
  {
    fs == [] ||
      (PlainFlags(fs[0], s) && match Dec(fs[0], s) case Ok((_, rest)) => PlainAll(fs[1..], rest) case Err(_) => false)
  }

  predicate PlainItems(elem: Schema, n: nat, s: seq<Byte>)
    decreases elem, 1, n
  {
    n == 0 ||
      (PlainFlags(elem, s) && match Dec(elem, s) case Ok((_, rest)) => PlainItems(elem, n - 1, rest) case Err(_) => false)
  }

  // The bytes of s before its suffix `rest`.
  function Consumed(s: seq<Byte>, rest: seq<Byte>): seq<Byte> {
    if |rest| <= |s| then s[..|s| - |rest|] else []
  }

  ghost predicate IsSuffix(rest: seq<Byte>, s: seq<Byte>) {
    |rest| <= |s| && s == Consumed(s, rest) + rest
  }

  lemma SplitEqual(a: seq<Byte>, b: seq<Byte>, c: seq<Byte>, d: seq<Byte>)
    requires |a| == |c|
    ensures a + b == c + d <==> a == c && b == d
  {
    if a + b == c + d {
      assert a == (a + b)[..|a|] && c == (c + d)[..|c|];
      assert b == (a + b)[|a|..] && d == (c + d)[|c|..];
    }
  }

  // Two readings in a row.
  lemma ConsumedTwice(s: seq<Byte>, mid: seq<Byte>, rest: seq<Byte>)
    requires IsSuffix(mid, s) && IsSuffix(rest, mid)
    ensures IsSuffix(rest, s) && Consumed(s, rest) == Consumed(s, mid) + Consumed(mid, rest)
  {
    assert s == Consumed(s, mid) + Consumed(mid, rest) + rest;
  }

  // And their encodings: both must agree for the whole to agree.
  lemma JoinedAgree(s: seq<Byte>, mid: seq<Byte>, rest: seq<Byte>, head: seq<Byte>, tail: seq<Byte>)
    requires IsSuffix(mid, s) && IsSuffix(rest, mid) && |head| + |mid| == |s|
    ensures IsSuffix(rest, s)
    ensures head + tail == Consumed(s, rest) <==> head == Consumed(s, mid) && tail == Consumed(mid, rest)
  {
    ConsumedTwice(s, mid, rest);
    SplitEqual(head, tail, Consumed(s, mid), Consumed(mid, rest));
  }

  lemma WordConsumed(s: seq<Byte>, k: nat)
    requires |s| >= k
    ensures IsSuffix(s[k..], s) && Consumed(s, s[k..]) == s[..k] && Le(UnLe(s[..k]), k) == s[..k]
  {
    LeOfUnLe(s[..k]);
  }

  lemma TextConsumed(s: seq<Byte>)
    requires GetText(s).Ok?
    ensures var (t, rest) := GetText(s).value; IsSuffix(rest, s) && Consumed(s, rest) == EncText(t)
  {
    WordConsumed(s, 4);
    var (t, rest) := GetText(s).value;
    assert s[4..] == t + rest;
    assert s == s[..4] + t + rest;
  }

  /** A decoded record encodes back to exactly the bytes it was read from if and only if every boolean among them
      is 0 or 1; what is left is what follows those bytes. */
  lemma {:induction false} Reencodes(sc: Schema, s: seq<Byte>)
    requires Dec(sc, s).Ok?
    ensures var (v, rest) := Dec(sc, s).value;
      IsSuffix(rest, s) && (Enc(sc, v) == Consumed(s, rest) <==> PlainFlags(sc, s))
    decreases sc, 0
  {
    match sc
    case Word(k, _) => WordConsumed(s, k);
    case Flag => WordConsumed(s, 1); FlagByte(s);
    case Str => TextConsumed(s);
    case Record(fs) => AllReencode(fs, s);
    case List(elem, unique) => ListReencodes(elem, unique, s);
    case Checked(inner, _) => Reencodes(inner, s);
  }

  lemma FlagByte(s: seq<Byte>)
    requires s != []
    ensures UnLe(s[..1]) == s[0] && (EncBool(s[0] != 0) == s[..1] <==> s[0] <= 1)
  {
    assert s[..1][1..] == [] && s[..1] == [s[0]];
  }

  lemma {:induction false} ListReencodes(elem: Schema, unique: bool, s: seq<Byte>)
    requires Dec(List(elem, unique), s).Ok?
    ensures var (v, rest) := Dec(List(elem, unique), s).value;
      IsSuffix(rest, s) && (Enc(List(elem, unique), v) == Consumed(s, rest) <==> PlainFlags(List(elem, unique), s))
    decreases elem, 2
  {
    var n := UnLe(s[..4]);
    var (v, rest) := Dec(List(elem, unique), s).value;
    WordConsumed(s, 4);
    CountWritten(elem, unique, n, s[4..]);
    ItemsReencode(elem, unique, n, [], s[4..]);
    assert v.items[0..] == v.items;
    JoinedAgree(s, s[4..], rest, Le(n, 4), EncItems(elem, v.items));
  }

  lemma CountWritten(elem: Schema, unique: bool, n: nat, s: seq<Byte>)
    requires n <= MAX_RECORDS && DecItems(elem, unique, n, [], s).Ok?
    ensures |DecItems(elem, unique, n, [], s).value.0| == n == n % U32_LIMIT
  {
    ItemsSound(elem, unique, n, [], s);
  }

  lemma {:induction false} AllReencode(fs: seq<Schema>, s: seq<Byte>)
    requires DecAll(fs, s).Ok?
    ensures var (vs, rest) := DecAll(fs, s).value;
      IsSuffix(rest, s) && (EncAll(fs, vs) == Consumed(s, rest) <==> PlainAll(fs, s))
    decreases fs, 0
  {
    var (vs, rest) := DecAll(fs, s).value;
    if fs == [] {
      assert s == [] + s;
    } else {
      var (v, mid) := Dec(fs[0], s).value;
      Reencodes(fs[0], s);
      DecSound(fs[0], s);
      AllReencode(fs[1..], mid);
      assert vs[0] == v && vs[1..] == DecAll(fs[1..], mid).value.0;
      JoinedAgree(s, mid, rest, Enc(fs[0], v), EncAll(fs[1..], vs[1..]));
    }
  }

  // Reading n items is reading one and then the rest.
  lemma FirstItem(elem: Schema, unique: bool, n: nat, before: seq<Value>, s: seq<Byte>)
    requires n > 0 && DecItems(elem, unique, n, before, s).Ok? && (unique ==> DistinctKeys(before))
    ensures Dec(elem, s).Ok?
    ensures var (v, mid) := Dec(elem, s).value;
      && DecItems(elem, unique, n - 1, before + [v], mid) == DecItems(elem, unique, n, before, s)
      && (unique ==> DistinctKeys(before + [v])) && |Enc(elem, v)| + |mid| == |s|
      && var vs := DecItems(elem, unique, n, before, s).value.0;
         |vs| > |before| && EncItems(elem, vs[|before|..]) == Enc(elem, v) + EncItems(elem, vs[|before| + 1..])
  {
    var (v, mid) := Dec(elem, s).value;
    DecSound(elem, s);
    RepeatSpoils(before, [v]);
    ItemsSound(elem, unique, n - 1, before + [v], mid);
    ItemEncoded(elem, before, v, DecItems(elem, unique, n, before, s).value.0);
  }

  lemma NoItemsLeft(elem: Schema, vs: seq<Value>, s: seq<Byte>)
    ensures IsSuffix(s, s) && EncItems(elem, vs[|vs|..]) == Consumed(s, s) == []
  {
    assert s == [] + s && vs[|vs|..] == [];
  }

  lemma {:induction false} ItemsReencode(elem: Schema, unique: bool, n: nat, before: seq<Value>, s: seq<Byte>)
    requires DecItems(elem, unique, n, before, s).Ok? && (unique ==> DistinctKeys(before))
    ensures var (vs, rest) := DecItems(elem, unique, n, before, s).value;
      |before| <= |vs| && IsSuffix(rest, s) && (EncItems(elem, vs[|before|..]) == Consumed(s, rest) <==> PlainItems(elem, n, s))
    decreases elem, 1, n
  {
    var (vs, rest) := DecItems(elem, unique, n, before, s).value;
    if n == 0 {
      NoItemsLeft(elem, vs, s);
    } else {
      FirstItem(elem, unique, n, before, s);
      var (v, mid) := Dec(elem, s).value;
      var more := before + [v];
      assert |more| == |before| + 1;
      Reencodes(elem, s);
      ItemsReencode(elem, unique, n - 1, more, mid);
      JoinedAgree(s, mid, rest, Enc(elem, v), EncItems(elem, vs[|more|..]));
    }
  }

  lemma ItemEncoded(elem: Schema, before: seq<Value>, v: Value, vs: seq<Value>)
    requires |vs| > |before| && vs[..|before| + 1] == before + [v]
    ensures EncItems(elem, vs[|before|..]) == Enc(elem, v) + EncItems(elem, vs[|before| + 1..])
  {
    var b := |before|;
    assert vs[b] == vs[..b + 1][b];
    assert vs[b..][0] == v && vs[b..][1..] == vs[b + 1..];
  }

  // --- the encoder and decoder, in place ------------------------------------------------------

  method Write(w: ByteWriter, sc: Schema, v: Value)
    modifies w
    ensures w.buf == old(w.buf) + Enc(sc, v)
    decreases sc, 0
  {
    match sc
    case Word(k, _) => if v.Num? { w.PutWord(v.n, k); }
    case Flag => if v.Bit? { w.PutBool(v.b); }
    case Str => if v.Chars? { w.PutText(v.text); }
    case Record(fs) => if v.Tuple? { WriteAll(w, fs, v.items); }
    case List(elem, _) => if v.Tuple? { WriteList(w, elem, v.items); }
    case Checked(inner, _) => Write(w, inner, v);
  }

  method WriteList(w: ByteWriter, elem: Schema, vs: seq<Value>)
    modifies w
    ensures w.buf == old(w.buf) + (Le(|vs| % U32_LIMIT, 4) + EncItems(elem, vs))
    decreases elem, 2
  {
    ghost var start, count, items := w.buf, Le(|vs| % U32_LIMIT, 4), EncItems(elem, vs);
    w.PutWord(|vs| % U32_LIMIT, 4);
    WriteItems(w, elem, vs);
    Associative(start, count, items);
  }

  method WriteAll(w: ByteWriter, fs: seq<Schema>, vs: seq<Value>)
    modifies w
    ensures w.buf == old(w.buf) + EncAll(fs, vs)
    decreases fs, 0
  {
    if fs != [] && vs != [] {
      ghost var start := w.buf;
      Write(w, fs[0], vs[0]);
      WriteAll(w, fs[1..], vs[1..]);
      Associative(start, Enc(fs[0], vs[0]), EncAll(fs[1..], vs[1..]));
    }
  }

  method WriteItems(w: ByteWriter, elem: Schema, vs: seq<Value>)
    modifies w
    ensures w.buf == old(w.buf) + EncItems(elem, vs)
    decreases elem, 1, |vs|
  {
    ghost var start := w.buf;
    for i := 0 to |vs|
      invariant w.buf + EncItems(elem, vs[i..]) == start + EncItems(elem, vs)
    {
      assert vs[i..][0] == vs[i] && vs[i..][1..] == vs[i + 1..];
      ghost var now := w.buf;
      Write(w, elem, vs[i]);
      assert now + (Enc(elem, vs[i]) + EncItems(elem, vs[i + 1..])) == now + Enc(elem, vs[i]) + EncItems(elem, vs[i + 1..]);
    }
    assert vs[|vs|..] == [];
  }

  method Read(r: ByteReader, sc: Schema) returns (res: Result<Value>)
    requires r.Valid()
    modifies r
    ensures r.Valid()
    ensures match Dec(sc, old(r.Rest()))
      case Ok(p) => res == Ok(p.0) && r.Rest() == p.1
      case Err(e) => res == Err(e)
    decreases sc, 0
  {
    match sc
    case Word(k, limit) =>
      var n := r.ReadWord(k);
      if n.Err? { return Err(n.error); }
      return if n.value > limit then Err(Corruption) else Ok(Num(n.value));
    case Flag =>
      var n := r.ReadWord(1);
      return if n.Err? then Err(n.error) else Ok(Bit(n.value != 0));
    case Str =>
      var t := r.ReadText();
      return if t.Err? then Err(t.error) else Ok(Chars(t.value));
    case Record(fs) =>
      var vs := ReadAll(r, fs);
      return if vs.Err? then Err(vs.error) else Ok(Tuple(vs.value));
    case List(elem, unique) =>
      var n := r.ReadWord(4);
      if n.Err? { return Err(n.error); }
      if n.value > MAX_RECORDS { return Err(OversizedFrame); }
      var vs := ReadItems(r, elem, unique, n.value);
      return if vs.Err? then Err(vs.error) else Ok(Tuple(vs.value));
    case Checked(inner, rule) =>
      var v := Read(r, inner);
      if v.Err? { return Err(v.error); }
      return if rule(v.value).Some? then Err(rule(v.value).value) else v;
  }

  method ReadAll(r: ByteReader, fs: seq<Schema>) returns (res: Result<seq<Value>>)
    requires r.Valid()
    modifies r
    ensures r.Valid()
    ensures match DecAll(fs, old(r.Rest()))
      case Ok(p) => res == Ok(p.0) && r.Rest() == p.1
      case Err(e) => res == Err(e)
    decreases fs, 0
  {
    if fs == [] { return Ok([]); }
    var v := Read(r, fs[0]);
    if v.Err? { return Err(v.error); }
    var vs := ReadAll(r, fs[1..]);
    return if vs.Err? then Err(vs.error) else Ok([v.value] + vs.value);
  }

  method ReadItems(r: ByteReader, elem: Schema, unique: bool, n: nat) returns (res: Result<seq<Value>>)
    requires r.Valid()
    modifies r
    ensures r.Valid()
    ensures match DecItems(elem, unique, n, [], old(r.Rest()))
      case Ok(p) => res == Ok(p.0) && r.Rest() == p.1
      case Err(e) => res == Err(e)
    decreases elem, 1, n
  {
    var vs: seq<Value> := [];
    for i := 0 to n
      invariant r.Valid()
      invariant DecItems(elem, unique, n - i, vs, r.Rest()) == DecItems(elem, unique, n, [], old(r.Rest()))
    {
      var v := Read(r, elem);
      if v.Err? { return Err(v.error); }
      if unique && Repeats(v.value, vs) { return Err(Corruption); }
      vs := vs + [v.value];
    }
    return Ok(vs);
  }
}
