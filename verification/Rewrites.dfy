/** What is read can be written again: an accepted record or file holds exactly the bytes that writing its content
    gives, unless one of its booleans was neither 0 nor 1. */
module Rewrites {
  import opened Types
  import opened Coding
  import opened Wire
  import opened Records
  import opened CandidateRecords
  import opened Persistence
  import opened SnapshotChecks
  import opened SavedFiles
  import opened Layout
  import opened InRange
  import opened Canonical
  import opened Transport
  import FileLayout

  // --- records --------------------------------------------------------------------------------

  /** A decoded request, written again, is the bytes it was decoded from exactly when their booleans are 0 or 1. */
  lemma RequestRewrites(s: seq<Byte>)
    requires DecodeRequest(s).Ok?
    ensures var (r, rest) := DecodeRequest(s).value;
      IsSuffix(rest, s) && (RequestBytes(r) == Consumed(s, rest) <==> PlainFlags(RequestSchema, s))
  {
    DecSound(RequestSchema, s);
    Reencodes(RequestSchema, s);
    var v := Dec(RequestSchema, s).value.0;
    RequestWrites(v);
    RequestLayout(RequestOf(v));
  }

  /** And so is a decoded plan. */
  lemma PlanRewrites(s: seq<Byte>)
    requires DecodePlan(s).Ok?
    ensures var (p, rest) := DecodePlan(s).value;
      IsSuffix(rest, s) && (PlanBytes(p) == Consumed(s, rest) <==> PlainFlags(PlanSchema, s))
  {
    DecSound(PlanSchema, s);
    Reencodes(PlanSchema, s);
    var v := Dec(PlanSchema, s).value.0;
    PlanWrites(v);
    PlanLayout(PlanOf(v));
  }

  /** And a decoded candidate. */
  lemma CandidateRewrites(s: seq<Byte>)
    requires DecodeCandidate(s).Ok?
    ensures var (c, rest) := DecodeCandidate(s).value;
      IsSuffix(rest, s) && (CandidateBytes(c) == Consumed(s, rest) <==> PlainFlags(CandidateSchema, s))
  {
    DecSound(CandidateSchema, s);
    Reencodes(CandidateSchema, s);
    var v := Dec(CandidateSchema, s).value.0;
    CandidateWrites(v);
    CandidateLayout(CandidateOf(v));
  }

  // --- the snapshot ---------------------------------------------------------------------------

  lemma RequestsWrite(v: Value)
    requires Fits(List(RequestSchema, true), v)
    ensures Each(RequestValue, EachOf(RequestOf, v)) == v
  {
    forall x | Fits(RequestSchema, x) ensures RequestValue(RequestOf(x)) == x { RequestWrites(x); }
    ListWrites(RequestSchema, true, RequestValue, RequestOf, v);
  }

  lemma PlansWrite(v: Value)
    requires Fits(List(PlanSchema, true), v)
    ensures Each(PlanValue, EachOf(PlanOf, v)) == v
  {
    forall x | Fits(PlanSchema, x) ensures PlanValue(PlanOf(x)) == x { PlanWrites(x); }
    ListWrites(PlanSchema, true, PlanValue, PlanOf, v);
  }

  lemma IdentitiesWrite(v: Value)
    requires Fits(List(IdentitySchema, true), v)
    ensures Each(IdentityValue, EachOf(IdentityOf, v)) == v
  {
    forall x | Fits(IdentitySchema, x) ensures IdentityValue(IdentityOf(x)) == x { IdentityWrites(x); }
    ListWrites(IdentitySchema, true, IdentityValue, IdentityOf, v);
  }

  lemma LinesWrite(v: Value)
    requires Fits(List(Str, false), v)
    ensures Each(Line, EachOf(LineOf, v)) == v
  {
    ListWrites(Str, false, Line, LineOf, v);
  }

  lemma HeadWrites(v: Value)
    requires Fits(HeadSchema, v)
    ensures Nums([N(v, 0), N(v, 1), N(v, 2), N(v, 3), N(v, 4), N(v, 5)]) == v
  {
    assert Fits(Words(6), v);
    WordsWrite(6, v);
    assert Nums([N(v, 0), N(v, 1), N(v, 2), N(v, 3), N(v, 4), N(v, 5)]).items == v.items;
  }

  lemma BodyHeadWrites(v: Value)
    requires Fits(BodyFields, v)
    ensures v.Tuple? && |v.items| == 3
    ensures var h := v.items[0]; h == Nums([N(h, 0), N(h, 1), N(h, 2), N(h, 3), N(h, 4), N(h, 5)])
  {
    FieldFits(BodyFields, v, 0);
    HeadWrites(v.items[0]);
  }

  lemma BodyListsWrite(v: Value)
    requires Fits(BodyFields, v)
    ensures v.Tuple? && |v.items| == 3
    ensures v.items[1] == Each(RequestValue, EachOf(RequestOf, v.items[1])) && v.items[2] == Each(PlanValue, EachOf(PlanOf, v.items[2]))
  {
    FieldFits(BodyFields, v, 1);
    FieldFits(BodyFields, v, 2);
    RequestsWrite(v.items[1]);
    PlansWrite(v.items[2]);
  }

  lemma BodyWrites(v: Value, p: Persisted)
    requires Fits(BodySchema, v) && p.requests == EachOf(RequestOf, At(v, 1)) && p.plans == EachOf(PlanOf, At(v, 2))
    requires var h := At(v, 0); CountersOf(p) == [N(h, 0), N(h, 1), N(h, 2), N(h, 3), N(h, 4), N(h, 5)]
    ensures BodyValue(p) == v
  {
    assert Fits(BodyFields, v);
    BodyHeadWrites(v);
    BodyListsWrite(v);
    assert BodyValue(p).items == v.items;
  }

  lemma SnapshotBodyWrites(v: Value, version: nat)
    requires Fits(SnapshotFields, v)
    ensures v.Tuple? && |v.items| == 4 && v.items[0] == BodyValue(SnapshotOf(v, version))
  {
    FieldFits(SnapshotFields, v, 0);
    BodyWrites(v.items[0], SnapshotOf(v, version));
  }

  lemma SnapshotListsWrite(v: Value)
    requires Fits(SnapshotFields, v)
    ensures v.Tuple? && |v.items| == 4
    ensures v.items[1] == Each(IdentityValue, EachOf(IdentityOf, v.items[1])) && v.items[2] == Each(Line, EachOf(LineOf, v.items[2]))
    ensures v.items[3] == Nums(NumsOf(v.items[3]))
  {
    FieldFits(SnapshotFields, v, 1);
    FieldFits(SnapshotFields, v, 2);
    FieldFits(SnapshotFields, v, 3);
    IdentitiesWrite(v.items[1]);
    LinesWrite(v.items[2]);
    NumbersWrite(8, U64_LIMIT - 1, false, v.items[3]);
  }

  lemma SnapshotWrites(v: Value, version: nat)
    requires Fits(SnapshotSchema, v)
    ensures SnapshotValue(SnapshotOf(v, version), NumsOf(At(v, 3))) == v
  {
    assert Fits(SnapshotFields, v);
    SnapshotBodyWrites(v, version);
    SnapshotListsWrite(v);
    assert SnapshotValue(SnapshotOf(v, version), NumsOf(At(v, 3))).items == v.items;
  }

  /** Whatever file the loader accepts, the cancelled requests it lists are those loaded, and writing what was loaded,
      with them in the order listed, gives the very payload exactly when its booleans are 0 or 1. */
  lemma LoadedRewrites(s: seq<Byte>) returns (order: seq<nat>)
    requires Load(s).Ok?
    ensures Unwrap(s).Ok? && Load(s).value.cancelledRequests == set id | id in order
    ensures FileLayout.SnapshotBytes(Load(s).value, order) == Unwrap(s).value <==> PlainFlags(SnapshotSchema, Unwrap(s).value)
  {
    LoadSound(s);
    var v := ParseSnapshot(Unwrap(s).value).value;
    order := NumsOf(At(v, 3));
    SnapshotWrites(v, UnLe(s[4..8]));
    FileLayout.SnapshotLayout(Load(s).value, order);
  }

  // --- files that load ------------------------------------------------------------------------

  lemma ListShaped<A>(elem: Schema, unique: bool, f: A -> Value, xs: seq<A>)
    requires Good(List(elem, unique), Each(f, xs))
    ensures ShapedEach(elem, f, xs)
  {
    assert forall i :: 0 <= i < |xs| ==> Each(f, xs).items[i] == f(xs[i]);
  }

  lemma BodyStorable(p: Persisted)
    requires Good(BodySchema, BodyValue(p))
    ensures Shaped(HeadSchema, Nums(CountersOf(p)))
    ensures ShapedEach(RequestSchema, RequestValue, p.requests) && ShapedEach(PlanSchema, PlanValue, p.plans)
  {
    GoodThree(HeadSchema, List(RequestSchema, true), List(PlanSchema, true),
              Nums(CountersOf(p)), Each(RequestValue, p.requests), Each(PlanValue, p.plans));
    assert Good(BodyFields, BodyValue(p));
    ListShaped(RequestSchema, true, RequestValue, p.requests);
    ListShaped(PlanSchema, true, PlanValue, p.plans);
  }

  lemma InRangeStorable(p: Persisted, order: seq<nat>)
    requires SnapshotInRange(p, order)
    ensures Storable(p, order) && Good(SnapshotSchema, SnapshotValue(p, order))
  {
    GoodSnapshot(p, order);
    GoodFour(BodySchema, List(IdentitySchema, true), List(Str, false), List(U64, false),
             BodyValue(p), Each(IdentityValue, p.candidateIdentities), Each(Line, p.supersessionHistory), Nums(order));
    BodyStorable(p);
    ListShaped(IdentitySchema, true, IdentityValue, p.candidateIdentities);
  }

  /** A snapshot whose numbers and lists are in range and that takes at most 1 GiB loads back from its file exactly
      when the integrity checks hold, losing only the required topology generations. */
  lemma InRangeLoads(p: Persisted, order: seq<nat>)
    requires p.formatVersion == 1 && SnapshotInRange(p, order) && Enumerates(order, p.cancelledRequests)
    requires |FileLayout.SnapshotBytes(p, order)| <= 1024 * 1024 * 1024
    ensures if IntegrityOk(p) then Load(Save(p, order)) == Ok(Reloaded(p)) else Load(Save(p, order)).Err?
  {
    InRangeStorable(p, order);
    FileLayout.SnapshotLayout(p, order);
    LoadOfSave(p, order);
  }
}
