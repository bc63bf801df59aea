/**
 * The requests the domain operations post: a fixed endpoint path, a fixed remote
 * method name and the parameters of the body. Nothing is sent; a request is a value.
 */
module Operations {
  import opened Wrappers
  import opened Json
  import opened Envelope
  import opened TransactionFilter

  /** An HTTP POST to `endpoint` (relative to the services base URL) with `body` as JSON. */
  datatype Request = Request(endpoint: string, body: Body)

  /** The parameters every request ends with. */
  const SessionIdField := Field(SessionIdKey, SessionRead)

  /** listAccounts */
  function ListAccounts(): (r: Request)
    ensures r.endpoint == "commerce" && r.body.methodName == "retrieveAccounts"
    ensures r.body.params == [SessionIdField]
    ensures Lookup(r.body.params, SessionIdKey) == Some(SessionRead) && Distinct(Keys(r.body.params))
  {
    NoParamsOnlySessionId("retrieveAccounts");
    Request("commerce", Build("retrieveAccounts", None))
  }

  /** retrieveUser */
  function RetrieveUser(): (r: Request)
    ensures r.endpoint == "user" && r.body.methodName == "retrieve"
    ensures r.body.params == [SessionIdField]
    ensures Lookup(r.body.params, SessionIdKey) == Some(SessionRead) && Distinct(Keys(r.body.params))
  {
    NoParamsOnlySessionId("retrieve");
    Request("user", Build("retrieve", None))
  }

  /** getInstitutions */
  function GetInstitutions(): (r: Request)
    ensures r.endpoint == "institution" && r.body.methodName == "retrieveLookupList"
    ensures r.body.params == [SessionIdField]
    ensures Lookup(r.body.params, SessionIdKey) == Some(SessionRead) && Distinct(Keys(r.body.params))
  {
    NoParamsOnlySessionId("retrieveLookupList");
    Request("institution", Build("retrieveLookupList", None))
  }

  /** The fixed credentials of the anonymous system user. */
  const SystemCredentials := Obj([
    Field("domain", Str("")),
    Field("userName", Str("get_mobile")),
    Field("password", Str("NOTUSED"))])

  /**
   * createTemporarySession. Like every other call it carries `sessionId`: the
   * store read is attached even though no session exists yet.
   */
  function CreateTemporarySession(): (r: Request)
    ensures r.endpoint == "session" && r.body.methodName == "authenticateSystem"
    ensures r.body.params == [Field("systemCredentials", SystemCredentials), SessionIdField]
    ensures Lookup(r.body.params, SessionIdKey) == Some(SessionRead) && Distinct(Keys(r.body.params))
  {
    var params := [Field("systemCredentials", SystemCredentials)];
    KeysCons(params[0], []);
    assert params == [params[0]] + [];
    CallerParamsThenSessionId("authenticateSystem", params);
    Request("session", Build("authenticateSystem", Some(params)))
  }

  /**
   * The object the merge spreads: the caller's argument, or the default object
   * itself when the caller passes nothing.
   */
  function ArgumentFields(arg: Partial<PartialFilter>, sixMonthsAgo: string): seq<Field> {
    match arg
    case Absent => FilterFields(Defaults(sixMonthsAgo))
    case Present(p) => PartialFilterFields(p)
  }

  /** A filter object has distinct keys and no `sessionId`. */
  lemma FilterHasNoSessionId(f: Filter)
    ensures Distinct(Keys(FilterFields(f))) && SessionIdKey !in Keys(FilterFields(f))
  {
    FilterFieldsKeys(f);
    assert SessionIdKey !in FilterKeys;
  }

  lemma MergedParams(arg: Partial<PartialFilter>, sixMonthsAgo: string)
    ensures var merged := FilterFields(Merge(Defaults(sixMonthsAgo), Argument(arg, sixMonthsAgo)));
      && MergeExpression(FilterFields(Defaults(sixMonthsAgo)), ArgumentFields(arg, sixMonthsAgo)) == merged
      && Distinct(Keys(merged)) && SessionIdKey !in Keys(merged)
  {
    var d, p := Defaults(sixMonthsAgo), Argument(arg, sixMonthsAgo);
    if arg.Absent? {
      DefaultsSpreadOverThemselves(d);
      FullArgumentReplacesAll(d, d);
    } else {
      MergeMatchesSpread(d, p);
    }
    FilterHasNoSessionId(Merge(d, p));
  }

  /** listRecentTransactions(params = defaults); `arg` is Absent when the caller passes nothing. */
  function ListRecentTransactions(arg: Partial<PartialFilter>, sixMonthsAgo: string): (r: Request)
    ensures r.endpoint == "commerce" && r.body.methodName == "retrieveTransactionHistoryWithinDateRange"
    ensures r.body.params ==
      FilterFields(Merge(Defaults(sixMonthsAgo), Argument(arg, sixMonthsAgo))) + [SessionIdField]
    ensures Lookup(r.body.params, SessionIdKey) == Some(SessionRead) && Distinct(Keys(r.body.params))
  {
    var params := MergeExpression(FilterFields(Defaults(sixMonthsAgo)), ArgumentFields(arg, sixMonthsAgo));
    MergedParams(arg, sixMonthsAgo);
    CallerParamsThenSessionId("retrieveTransactionHistoryWithinDateRange", params);
    Request("commerce", Build("retrieveTransactionHistoryWithinDateRange", Some(params)))
  }

  /** With no argument the request carries exactly the default filter. */
  lemma NoArgumentSendsDefaults(sixMonthsAgo: string)
    ensures ListRecentTransactions(Absent, sixMonthsAgo).body.params ==
      [ Field(PaymentSystemTypeKey, Num(0)),
        Field(QueryCriteriaKey, Obj([
          Field(MaxReturnMostRecentKey, Num(10)),
          Field(NewestDateKey, Value.Null),
          Field(OldestDateKey, Str(sixMonthsAgo)),
          Field(AccountIdKey, Value.Null)])),
        SessionIdField ]
  {
    NoArgumentGivesDefaults(sixMonthsAgo);
  }

  /** The exported domain operations, each named by the call that makes it. */
  datatype Operation =
    | ListAccountsCall
    | RetrieveUserCall
    | GetInstitutionsCall
    | CreateTemporarySessionCall
    | ListRecentTransactionsCall(arg: Partial<PartialFilter>)

  function RequestFor(op: Operation, sixMonthsAgo: string): Request {
    match op
    case ListAccountsCall => ListAccounts()
    case RetrieveUserCall => RetrieveUser()
    case GetInstitutionsCall => GetInstitutions()
    case CreateTemporarySessionCall => CreateTemporarySession()
    case ListRecentTransactionsCall(arg) => ListRecentTransactions(arg, sixMonthsAgo)
  }

  /** Whatever the operation, the body's `sessionId` is the store read, and the body has no other `sessionId`. */
  lemma EverySessionIdIsTheStoreRead(op: Operation, sixMonthsAgo: string)
    ensures Lookup(RequestFor(op, sixMonthsAgo).body.params, SessionIdKey) == Some(SessionRead)
    ensures Distinct(Keys(RequestFor(op, sixMonthsAgo).body.params))
  {
  }

  /** Each remote method name is posted by exactly one operation. */
  lemma MethodNameIdentifiesCall(op: Operation, sixMonthsAgo: string)
    ensures var n := RequestFor(op, sixMonthsAgo).body.methodName;
      && (n == "retrieveAccounts" <==> op.ListAccountsCall?)
      && (n == "retrieve" <==> op.RetrieveUserCall?)
      && (n == "retrieveLookupList" <==> op.GetInstitutionsCall?)
      && (n == "authenticateSystem" <==> op.CreateTemporarySessionCall?)
      && (n == "retrieveTransactionHistoryWithinDateRange" <==> op.ListRecentTransactionsCall?)
  {
    assert |"retrieveAccounts"| == 16 && |"retrieve"| == 8 && |"retrieveLookupList"| == 18;
    assert |"authenticateSystem"| == 18 && |"retrieveTransactionHistoryWithinDateRange"| == 41;
    assert "retrieveLookupList"[0] != "authenticateSystem"[0];
  }

  /**
   * Two calls post the same endpoint and remote method name exactly when they are
   * the same operation (`listRecentTransactions` with any two arguments counting
   * as one).
   */
  lemma OperationsAreDistinguishable(op1: Operation, op2: Operation, sixMonthsAgo: string)
    ensures (RequestFor(op1, sixMonthsAgo).endpoint == RequestFor(op2, sixMonthsAgo).endpoint
             && RequestFor(op1, sixMonthsAgo).body.methodName == RequestFor(op2, sixMonthsAgo).body.methodName)
        <==> (op1 == op2 || (op1.ListRecentTransactionsCall? && op2.ListRecentTransactionsCall?))
  {
    MethodNameIdentifiesCall(op1, sixMonthsAgo);
    MethodNameIdentifiesCall(op2, sixMonthsAgo);
  }
}
