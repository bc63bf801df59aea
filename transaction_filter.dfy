/**
 * The filter `listRecentTransactions` sends: a default filter with the caller's
 * partial filter merged over it, two levels deep.
 *
 * Typed view: `Nullable` is a field typed `T | null`, `Partial` is a property of a
 * partial argument that is either left out or given (possibly as an explicit null).
 * Object view: the same values as request-body objects, and the merge exactly as
 * the client writes it with object spreads; MergeMatchesSpread shows the two agree.
 */
module TransactionFilter {
  import opened Wrappers
  import J = Json

  datatype Nullable<T> = Null | NonNull(value: T)
  datatype Partial<T> = Absent | Present(value: T)

  datatype Criteria = Criteria(
    maxReturnMostRecent: Nullable<int>,
    newestDate: Nullable<string>,
    oldestDate: Nullable<string>,
    accountId: Nullable<string>)

  datatype Filter = Filter(paymentSystemType: Nullable<int>, queryCriteria: Criteria)

  datatype PartialCriteria = PartialCriteria(
    maxReturnMostRecent: Partial<Nullable<int>>,
    newestDate: Partial<Nullable<string>>,
    oldestDate: Partial<Nullable<string>>,
    accountId: Partial<Nullable<string>>)

  datatype PartialFilter = PartialFilter(
    paymentSystemType: Partial<Nullable<int>>,
    queryCriteria: Partial<PartialCriteria>)

  /**
   * listRecentTransactionsDefaultParams. `sixMonthsAgo` stands for the ISO date
   * computed from the clock when the module loads.
   */
  function Defaults(sixMonthsAgo: string): Filter {
    Filter(NonNull(0), Criteria(NonNull(10), Null, NonNull(sixMonthsAgo), Null))
  }

  /** A filter given in full, as a partial filter with every field present. */
  function AllPresent(f: Filter): PartialFilter {
    var c := f.queryCriteria;
    PartialFilter(
      Present(f.paymentSystemType),
      Present(PartialCriteria(
        Present(c.maxReturnMostRecent), Present(c.newestDate), Present(c.oldestDate), Present(c.accountId))))
  }

  /** The argument the merge sees: a missing argument is replaced by the defaults. */
  function Argument(arg: Partial<PartialFilter>, sixMonthsAgo: string): PartialFilter {
    match arg
    case Absent => AllPresent(Defaults(sixMonthsAgo))
    case Present(p) => p
  }

  /** A default field value with the caller's override, if any. */
  function Override<T>(d: T, p: Partial<T>): T {
    match p
    case Absent => d
    case Present(v) => v
  }

  function MergeCriteria(d: Criteria, p: Partial<PartialCriteria>): Criteria {
    match p
    case Absent => d
    case Present(c) =>
      Criteria(
        Override(d.maxReturnMostRecent, c.maxReturnMostRecent),
        Override(d.newestDate, c.newestDate),
        Override(d.oldestDate, c.oldestDate),
        Override(d.accountId, c.accountId))
  }

  /** The merged filter, field by field. */
  function Merge(d: Filter, p: PartialFilter): Filter {
    Filter(Override(d.paymentSystemType, p.paymentSystemType), MergeCriteria(d.queryCriteria, p.queryCriteria))
  }

  // ---------------------------------------------------------------------------
  // Object view

  const PaymentSystemTypeKey := "paymentSystemType"
  const QueryCriteriaKey := "queryCriteria"
  const MaxReturnMostRecentKey := "maxReturnMostRecent"
  const NewestDateKey := "newestDate"
  const OldestDateKey := "oldestDate"
  const AccountIdKey := "accountId"

  function NumValue(x: Nullable<int>): J.Value {
    match x
    case Null => J.Null
    case NonNull(n) => J.Num(n)
  }

  function StrValue(x: Nullable<string>): J.Value {
    match x
    case Null => J.Null
    case NonNull(s) => J.Str(s)
  }

  function CriteriaFields(c: Criteria): seq<J.Field> {
    [ J.Field(MaxReturnMostRecentKey, NumValue(c.maxReturnMostRecent)),
      J.Field(NewestDateKey, StrValue(c.newestDate)),
      J.Field(OldestDateKey, StrValue(c.oldestDate)),
      J.Field(AccountIdKey, StrValue(c.accountId)) ]
  }

  function FilterFields(f: Filter): seq<J.Field> {
    [ J.Field(PaymentSystemTypeKey, NumValue(f.paymentSystemType)),
      J.Field(QueryCriteriaKey, J.Obj(CriteriaFields(f.queryCriteria))) ]
  }

  /** Defines property `k` on the caller's object literal when the caller wrote it. */
  function Put(fs: seq<J.Field>, k: string, p: Partial<J.Value>): seq<J.Field> {
    match p
    case Absent => fs
    case Present(v) => J.Assign(fs, k, v)
  }

  function NumPartial(p: Partial<Nullable<int>>): Partial<J.Value> {
    match p
    case Absent => Absent
    case Present(x) => Present(NumValue(x))
  }

  function StrPartial(p: Partial<Nullable<string>>): Partial<J.Value> {
    match p
    case Absent => Absent
    case Present(x) => Present(StrValue(x))
  }

  function PartialCriteriaFields(c: PartialCriteria): seq<J.Field> {
    var a := Put([], MaxReturnMostRecentKey, NumPartial(c.maxReturnMostRecent));
    var b := Put(a, NewestDateKey, StrPartial(c.newestDate));
    var d := Put(b, OldestDateKey, StrPartial(c.oldestDate));
    Put(d, AccountIdKey, StrPartial(c.accountId))
  }

  function PartialFilterFields(p: PartialFilter): seq<J.Field> {
    var a := Put([], PaymentSystemTypeKey, NumPartial(p.paymentSystemType));
    match p.queryCriteria
    case Absent => a
    case Present(c) => J.Assign(a, QueryCriteriaKey, J.Obj(PartialCriteriaFields(c)))
  }

  /**
   * The merge as written:
   * `{...defaults, ...params, queryCriteria: {...defaults.queryCriteria, ...params.queryCriteria}}`.
   */
  function MergeExpression(defaults: seq<J.Field>, params: seq<J.Field>): seq<J.Field> {
    var criteria := J.Spread(
      J.Spread([], J.SpreadSource(J.Lookup(defaults, QueryCriteriaKey))),
      J.SpreadSource(J.Lookup(params, QueryCriteriaKey)));
    J.Assign(J.Spread(J.Spread([], defaults), params), QueryCriteriaKey, J.Obj(criteria))
  }

  // ---------------------------------------------------------------------------
  // The two views agree

  /** What the caller's `queryCriteria` contributes to the nested spread. */
  function CriteriaSource(p: Partial<PartialCriteria>): seq<J.Field> {
    match p
    case Absent => []
    case Present(c) => PartialCriteriaFields(c)
  }

  function AsOption(p: Partial<J.Value>): Option<J.Value> {
    match p
    case Absent => None
    case Present(v) => Some(v)
  }

  lemma PutLookup(fs: seq<J.Field>, k: string, p: Partial<J.Value>, j: string)
    ensures J.Lookup(Put(fs, k, p), j) == Over(if j == k then AsOption(p) else None, J.Lookup(fs, j))
  {
  }

  lemma PutDistinct(fs: seq<J.Field>, k: string, p: Partial<J.Value>)
    requires J.Distinct(J.Keys(fs))
    ensures J.Distinct(J.Keys(Put(fs, k, p)))
  {
    if p.Present? { J.AssignDistinct(fs, k, p.value); }
  }

  /** The value criteria `c` give key `j`, if any. */
  function CriteriaValue(c: Criteria, j: string): Option<J.Value> {
    if j == MaxReturnMostRecentKey then Some(NumValue(c.maxReturnMostRecent))
    else if j == NewestDateKey then Some(StrValue(c.newestDate))
    else if j == OldestDateKey then Some(StrValue(c.oldestDate))
    else if j == AccountIdKey then Some(StrValue(c.accountId))
    else None
  }

  /** The value partial criteria `c` give key `j`, if the caller wrote it. */
  function PartialCriteriaValue(c: PartialCriteria, j: string): Option<J.Value> {
    if j == MaxReturnMostRecentKey then AsOption(NumPartial(c.maxReturnMostRecent))
    else if j == NewestDateKey then AsOption(StrPartial(c.newestDate))
    else if j == OldestDateKey then AsOption(StrPartial(c.oldestDate))
    else if j == AccountIdKey then AsOption(StrPartial(c.accountId))
    else None
  }

  const CriteriaKeys := [MaxReturnMostRecentKey, NewestDateKey, OldestDateKey, AccountIdKey]

  /** What the caller's `queryCriteria` gives key `j`, if anything. */
  function SourceValue(p: Partial<PartialCriteria>, j: string): Option<J.Value> {
    match p
    case Absent => None
    case Present(c) => PartialCriteriaValue(c, j)
  }

  /** `a`, unless it is missing. */
  function Over<T>(a: Option<T>, b: Option<T>): Option<T> {
    if a.Some? then a else b
  }

  lemma CriteriaFieldsKeys(c: Criteria)
    ensures J.Keys(CriteriaFields(c)) == CriteriaKeys && J.Distinct(CriteriaKeys)
  {
    var f0 := J.Field(MaxReturnMostRecentKey, NumValue(c.maxReturnMostRecent));
    var f1 := J.Field(NewestDateKey, StrValue(c.newestDate));
    var f2 := J.Field(OldestDateKey, StrValue(c.oldestDate));
    var f3 := J.Field(AccountIdKey, StrValue(c.accountId));
    assert CriteriaFields(c) == [f0] + ([f1] + ([f2] + ([f3] + [])));
    J.KeysCons(f3, []);
    J.KeysCons(f2, [f3] + []);
    J.KeysCons(f1, [f2] + ([f3] + []));
    J.KeysCons(f0, [f1] + ([f2] + ([f3] + [])));
  }

  lemma CriteriaFieldsLookup(c: Criteria, j: string)
    ensures J.Lookup(CriteriaFields(c), j) == CriteriaValue(c, j)
  {
    var f0 := J.Field(MaxReturnMostRecentKey, NumValue(c.maxReturnMostRecent));
    var f1 := J.Field(NewestDateKey, StrValue(c.newestDate));
    var f2 := J.Field(OldestDateKey, StrValue(c.oldestDate));
    var f3 := J.Field(AccountIdKey, StrValue(c.accountId));
    assert CriteriaFields(c) == [f0] + ([f1] + ([f2] + ([f3] + [])));
    J.LookupCons(f3, [], j);
    J.LookupCons(f2, [f3] + [], j);
    J.LookupCons(f1, [f2] + ([f3] + []), j);
    J.LookupCons(f0, [f1] + ([f2] + ([f3] + [])), j);
  }

  lemma PartialCriteriaLookup(c: PartialCriteria, j: string)
    ensures J.Lookup(PartialCriteriaFields(c), j) == PartialCriteriaValue(c, j)
  {
    var a := Put([], MaxReturnMostRecentKey, NumPartial(c.maxReturnMostRecent));
    var b := Put(a, NewestDateKey, StrPartial(c.newestDate));
    var d := Put(b, OldestDateKey, StrPartial(c.oldestDate));
    PutLookup([], MaxReturnMostRecentKey, NumPartial(c.maxReturnMostRecent), j);
    PutLookup(a, NewestDateKey, StrPartial(c.newestDate), j);
    PutLookup(b, OldestDateKey, StrPartial(c.oldestDate), j);
    PutLookup(d, AccountIdKey, StrPartial(c.accountId), j);
  }

  lemma CriteriaSourceFacts(p: Partial<PartialCriteria>)
    ensures J.Distinct(J.Keys(CriteriaSource(p)))
    ensures forall j :: j in J.Keys(CriteriaSource(p)) ==> j in CriteriaKeys
  {
    if p.Present? {
      var c := p.value;
      var a := Put([], MaxReturnMostRecentKey, NumPartial(c.maxReturnMostRecent));
      var b := Put(a, NewestDateKey, StrPartial(c.newestDate));
      var d := Put(b, OldestDateKey, StrPartial(c.oldestDate));
      PutDistinct([], MaxReturnMostRecentKey, NumPartial(c.maxReturnMostRecent));
      PutDistinct(a, NewestDateKey, StrPartial(c.newestDate));
      PutDistinct(b, OldestDateKey, StrPartial(c.oldestDate));
      PutDistinct(d, AccountIdKey, StrPartial(c.accountId));
      forall j | j in J.Keys(CriteriaSource(p)) ensures j in CriteriaKeys {
        PartialCriteriaLookup(c, j);
      }
    }
  }

  lemma MergeCriteriaValue(d: Criteria, p: Partial<PartialCriteria>, j: string)
    ensures CriteriaValue(MergeCriteria(d, p), j) == Over(SourceValue(p, j), CriteriaValue(d, j))
  {
  }

  /** A caller's key `j` among the criteria keys, when the caller gives it a value. */
  lemma SourceValueKey(p: Partial<PartialCriteria>, j: string)
    ensures SourceValue(p, j).Some? ==> j in CriteriaKeys
  {
  }

  /**
   * A caller's `queryCriteria` object, in whatever key order it was written: its
   * keys are distinct and each gives the value the typed partial criteria give.
   */
  ghost predicate DescribesCriteria(S: seq<J.Field>, p: Partial<PartialCriteria>) {
    J.Distinct(J.Keys(S)) && forall j :: J.Lookup(S, j) == SourceValue(p, j)
  }

  lemma CriteriaSourceDescribes(p: Partial<PartialCriteria>)
    ensures DescribesCriteria(CriteriaSource(p), p)
  {
    CriteriaSourceFacts(p);
    forall j ensures J.Lookup(CriteriaSource(p), j) == SourceValue(p, j) {
      if p.Present? { PartialCriteriaLookup(p.value, j); }
    }
  }

  /**
   * The nested spread yields the field-by-field merge of the criteria, whatever
   * order the caller wrote the keys of its `queryCriteria` in.
   */
  lemma CriteriaMatchesSpread(d: Criteria, p: Partial<PartialCriteria>, S: seq<J.Field>)
    requires DescribesCriteria(S, p)
    ensures J.Spread(J.Spread([], CriteriaFields(d)), S) == CriteriaFields(MergeCriteria(d, p))
  {
    var D, M := CriteriaFields(d), CriteriaFields(MergeCriteria(d, p));
    CriteriaFieldsKeys(d);
    CriteriaFieldsKeys(MergeCriteria(d, p));
    J.SpreadIntoEmpty(D);
    forall j | j in J.Keys(S) ensures j in J.Keys(D) {
      SourceValueKey(p, j);
    }
    var R := J.Spread(D, S);
    J.SpreadKnownKeys(D, S);
    forall j ensures J.Lookup(R, j) == J.Lookup(M, j) {
      J.SpreadLookup(D, S, j);
      CriteriaFieldsLookup(d, j);
      CriteriaFieldsLookup(MergeCriteria(d, p), j);
      MergeCriteriaValue(d, p, j);
    }
    J.Extensional(R, M);
  }

  function FilterValue(f: Filter, j: string): Option<J.Value> {
    if j == PaymentSystemTypeKey then Some(NumValue(f.paymentSystemType))
    else if j == QueryCriteriaKey then Some(J.Obj(CriteriaFields(f.queryCriteria)))
    else None
  }

  function PartialFilterValue(p: PartialFilter, j: string): Option<J.Value> {
    if j == PaymentSystemTypeKey then AsOption(NumPartial(p.paymentSystemType))
    else if j == QueryCriteriaKey then
      (match p.queryCriteria
       case Absent => None
       case Present(c) => Some(J.Obj(PartialCriteriaFields(c))))
    else None
  }

  const FilterKeys := [PaymentSystemTypeKey, QueryCriteriaKey]

  lemma FilterFieldsKeys(f: Filter)
    ensures J.Keys(FilterFields(f)) == FilterKeys && J.Distinct(FilterKeys)
  {
    var f0 := J.Field(PaymentSystemTypeKey, NumValue(f.paymentSystemType));
    var f1 := J.Field(QueryCriteriaKey, J.Obj(CriteriaFields(f.queryCriteria)));
    assert FilterFields(f) == [f0] + ([f1] + []);
    J.KeysCons(f1, []);
    J.KeysCons(f0, [f1] + []);
  }

  lemma FilterFieldsLookup(f: Filter, j: string)
    ensures J.Lookup(FilterFields(f), j) == FilterValue(f, j)
  {
    var f0 := J.Field(PaymentSystemTypeKey, NumValue(f.paymentSystemType));
    var f1 := J.Field(QueryCriteriaKey, J.Obj(CriteriaFields(f.queryCriteria)));
    assert FilterFields(f) == [f0] + ([f1] + []);
    J.LookupCons(f1, [], j);
    J.LookupCons(f0, [f1] + [], j);
  }

  lemma PartialFilterLookup(p: PartialFilter, j: string)
    ensures J.Lookup(PartialFilterFields(p), j) == PartialFilterValue(p, j)
  {
    var a := Put([], PaymentSystemTypeKey, NumPartial(p.paymentSystemType));
    PutLookup([], PaymentSystemTypeKey, NumPartial(p.paymentSystemType), j);
  }

  lemma PartialFilterFacts(p: PartialFilter)
    ensures J.Distinct(J.Keys(PartialFilterFields(p)))
    ensures forall j :: j in J.Keys(PartialFilterFields(p)) ==> j in FilterKeys
  {
    var a := Put([], PaymentSystemTypeKey, NumPartial(p.paymentSystemType));
    PutDistinct([], PaymentSystemTypeKey, NumPartial(p.paymentSystemType));
    if p.queryCriteria.Present? {
      J.AssignDistinct(a, QueryCriteriaKey, J.Obj(PartialCriteriaFields(p.queryCriteria.value)));
    }
    forall j | j in J.Keys(PartialFilterFields(p)) ensures j in FilterKeys {
      PartialFilterLookup(p, j);
    }
  }

  /**
   * A caller's filter object, in whatever key order it was written: distinct keys,
   * only the two filter keys, `paymentSystemType` as the typed partial filter gives
   * it, and a `queryCriteria` that describes the typed partial criteria.
   */
  ghost predicate DescribesFilter(P: seq<J.Field>, p: PartialFilter) {
    && J.Distinct(J.Keys(P))
    && (forall j :: j in J.Keys(P) ==> j in FilterKeys)
    && J.Lookup(P, PaymentSystemTypeKey) == AsOption(NumPartial(p.paymentSystemType))
    && DescribesCriteria(J.SpreadSource(J.Lookup(P, QueryCriteriaKey)), p.queryCriteria)
  }

  lemma PartialFilterDescribes(p: PartialFilter)
    ensures DescribesFilter(PartialFilterFields(p), p)
  {
    var P := PartialFilterFields(p);
    PartialFilterFacts(p);
    PartialFilterLookup(p, PaymentSystemTypeKey);
    PartialFilterLookup(p, QueryCriteriaKey);
    assert J.SpreadSource(J.Lookup(P, QueryCriteriaKey)) == CriteriaSource(p.queryCriteria);
    CriteriaSourceDescribes(p.queryCriteria);
  }

  /** The outer spread, for any caller object and any value the nested spread produces. */
  lemma TopLevelSpread(d: Filter, p: PartialFilter, P: seq<J.Field>, criteria: seq<J.Field>)
    requires DescribesFilter(P, p)
    ensures J.Assign(J.Spread(J.Spread([], FilterFields(d)), P), QueryCriteriaKey, J.Obj(criteria))
         == [ J.Field(PaymentSystemTypeKey, NumValue(Override(d.paymentSystemType, p.paymentSystemType))),
              J.Field(QueryCriteriaKey, J.Obj(criteria)) ]
  {
    var D := FilterFields(d);
    var f0 := J.Field(PaymentSystemTypeKey, NumValue(Override(d.paymentSystemType, p.paymentSystemType)));
    var f1 := J.Field(QueryCriteriaKey, J.Obj(criteria));
    var M := [f0, f1];
    assert M == [f0] + ([f1] + []);
    J.KeysCons(f1, []);
    J.KeysCons(f0, [f1] + []);
    FilterFieldsKeys(d);
    J.SpreadIntoEmpty(D);
    var S := J.Spread(D, P);
    J.SpreadKnownKeys(D, P);
    var R := J.Assign(S, QueryCriteriaKey, J.Obj(criteria));
    forall j ensures J.Lookup(R, j) == J.Lookup(M, j) {
      J.LookupCons(f1, [], j);
      J.LookupCons(f0, [f1] + [], j);
      if j != QueryCriteriaKey {
        J.SpreadLookup(D, P, j);
        FilterFieldsLookup(d, j);
      }
    }
    J.Extensional(R, M);
  }

  /**
   * The merge as the client writes it, with object spreads, sends exactly the
   * field-by-field merge of the typed filter, in the defaults' key order, whatever
   * order the caller wrote its keys in.
   */
  lemma MergeAnyKeyOrder(d: Filter, p: PartialFilter, P: seq<J.Field>)
    requires DescribesFilter(P, p)
    ensures MergeExpression(FilterFields(d), P) == FilterFields(Merge(d, p))
  {
    var D := FilterFields(d);
    var criteria := J.Spread(
      J.Spread([], J.SpreadSource(J.Lookup(D, QueryCriteriaKey))),
      J.SpreadSource(J.Lookup(P, QueryCriteriaKey)));
    assert criteria == CriteriaFields(Merge(d, p).queryCriteria) by {
      FilterFieldsLookup(d, QueryCriteriaKey);
      CriteriaMatchesSpread(d.queryCriteria, p.queryCriteria, J.SpreadSource(J.Lookup(P, QueryCriteriaKey)));
    }
    TopLevelSpread(d, p, P, criteria);
  }

  /** In particular for the caller object written in the defaults' key order. */
  lemma MergeMatchesSpread(d: Filter, p: PartialFilter)
    ensures MergeExpression(FilterFields(d), PartialFilterFields(p)) == FilterFields(Merge(d, p))
  {
    PartialFilterDescribes(p);
    MergeAnyKeyOrder(d, p, PartialFilterFields(p));
  }

  /**
   * With no argument `params` is the default object itself, and spreading it over
   * itself (at both levels) gives back the defaults unchanged.
   */
  lemma DefaultsSpreadOverThemselves(d: Filter)
    ensures MergeExpression(FilterFields(d), FilterFields(d)) == FilterFields(d)
  {
    var D, C := FilterFields(d), CriteriaFields(d.queryCriteria);
    FilterFieldsKeys(d);
    CriteriaFieldsKeys(d.queryCriteria);
    FilterFieldsLookup(d, QueryCriteriaKey);
    assert J.SpreadSource(J.Lookup(D, QueryCriteriaKey)) == C;
    assert J.Spread(J.Spread([], C), C) == C by {
      J.SpreadIntoEmpty(C);
      J.SpreadSelf(C);
    }
    assert J.Spread(J.Spread([], D), D) == D by {
      J.SpreadIntoEmpty(D);
      J.SpreadSelf(D);
    }
    J.AssignSame(D, QueryCriteriaKey, J.Obj(C));
  }

  // ---------------------------------------------------------------------------
  // Properties of the merge

  /** Every field the caller writes wins, an explicit null included. */
  lemma SuppliedFieldsWin(d: Filter, p: PartialFilter)
    ensures p.paymentSystemType.Present? ==> Merge(d, p).paymentSystemType == p.paymentSystemType.value
    ensures p.queryCriteria.Present? ==>
      var c, m := p.queryCriteria.value, Merge(d, p).queryCriteria;
      && (c.maxReturnMostRecent.Present? ==> m.maxReturnMostRecent == c.maxReturnMostRecent.value)
      && (c.newestDate.Present? ==> m.newestDate == c.newestDate.value)
      && (c.oldestDate.Present? ==> m.oldestDate == c.oldestDate.value)
      && (c.accountId.Present? ==> m.accountId == c.accountId.value)
  {
  }

  /**
   * Every field the caller leaves out keeps its default; in particular a partial
   * `queryCriteria` leaves `paymentSystemType` and the other criteria alone.
   */
  lemma OmittedFieldsKeepDefaults(d: Filter, p: PartialFilter)
    ensures p.paymentSystemType.Absent? ==> Merge(d, p).paymentSystemType == d.paymentSystemType
    ensures p.queryCriteria.Absent? ==> Merge(d, p).queryCriteria == d.queryCriteria
    ensures p.queryCriteria.Present? ==>
      var c, m := p.queryCriteria.value, Merge(d, p).queryCriteria;
      && (c.maxReturnMostRecent.Absent? ==> m.maxReturnMostRecent == d.queryCriteria.maxReturnMostRecent)
      && (c.newestDate.Absent? ==> m.newestDate == d.queryCriteria.newestDate)
      && (c.oldestDate.Absent? ==> m.oldestDate == d.queryCriteria.oldestDate)
      && (c.accountId.Absent? ==> m.accountId == d.queryCriteria.accountId)
  {
  }

  /** Called with no argument, the merge yields the defaults exactly. */
  lemma NoArgumentGivesDefaults(sixMonthsAgo: string)
    ensures Merge(Defaults(sixMonthsAgo), Argument(Absent, sixMonthsAgo)) == Defaults(sixMonthsAgo)
    ensures var f := Defaults(sixMonthsAgo);
      && f.paymentSystemType == NonNull(0)
      && f.queryCriteria.maxReturnMostRecent == NonNull(10)
      && f.queryCriteria.newestDate == Null
      && f.queryCriteria.oldestDate == NonNull(sixMonthsAgo)
      && f.queryCriteria.accountId == Null
  {
  }

  /** Merging a filter given in full replaces every default. */
  lemma FullArgumentReplacesAll(d: Filter, f: Filter)
    ensures Merge(d, AllPresent(f)) == f
  {
  }

  /** Merging the same partial filter twice changes nothing more. */
  lemma MergeIdempotent(d: Filter, p: PartialFilter)
    ensures Merge(Merge(d, p), p) == Merge(d, p)
  {
  }

  /** `listRecentTransactions({queryCriteria: {maxReturnMostRecent: 5}})`. */
  lemma OnlyMaxReturnGiven(sixMonthsAgo: string)
    ensures
      var p := PartialFilter(Absent, Present(PartialCriteria(Present(NonNull(5)), Absent, Absent, Absent)));
      Merge(Defaults(sixMonthsAgo), p) == Filter(NonNull(0), Criteria(NonNull(5), Null, NonNull(sixMonthsAgo), Null))
  {
  }
}
