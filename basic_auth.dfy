/**
 * The BasicAuth domain model: a validating constructor over dynamically
 * typed arguments.
 */
module BasicAuthModel {
  import opened Wrappers
  import opened JsValues

  const TenantIdRequired := "tenantId parameter of type \"string\" is required"
  const PrincipalRequired := "principal parameter of type \"string|null\" is required"
  const CredentialsRequired := "credentials parameter of type \"string|null\" is required"

  /**
   * A BasicAuth object. `principal` and `credentials` hold whatever was
   * assigned to them (the constructor only admits a string or null); `created`
   * and `updated` are None until a controller assigns them.
   */
  datatype BasicAuth = BasicAuth(
    tenantId: string,
    principal: JsValue,
    credentials: JsValue,
    created: Option<Date>,
    updated: Option<Date>)

  predicate StringOrNull(v: JsValue) {
    v.Str? || v.Null?
  }

  /**
   * `new BasicAuth(tenantId, principal = null, credentials = null)`; an
   * omitted argument is passed as Undefined. The checks run in the order
   * tenantId, principal, credentials, and only the type is checked.
   */
  function New(tenantId: JsValue, principal: JsValue, credentials: JsValue): (r: Result<BasicAuth, string>)
    ensures r.Success? <==>
      tenantId.Str? && StringOrNull(DefaultNull(principal)) && StringOrNull(DefaultNull(credentials))
    ensures r.Success? ==>
      && Str(r.value.tenantId) == tenantId
      && r.value.principal == DefaultNull(principal)
      && r.value.credentials == DefaultNull(credentials)
      && r.value.created.None? && r.value.updated.None?
  {
    var principal := DefaultNull(principal);
    var credentials := DefaultNull(credentials);
    if !tenantId.Str? then
      Failure(TenantIdRequired)
    else if principal != Null && !principal.Str? then
      Failure(PrincipalRequired)
    else if credentials != Null && !credentials.Str? then
      Failure(CredentialsRequired)
    else
      Success(BasicAuth(tenantId.s, principal, credentials, None, None))
  }

  /** The type unions a constructor parameter can accept. */
  datatype Accepted = StringType | StringOrNullType

  /** How the error messages write a type union. */
  function TypeText(t: Accepted): string {
    match t
    case StringType => "string"
    case StringOrNullType => "string|null"
  }

  /** A constructor parameter: its name and the type union it accepts. */
  datatype Param = Param(name: string, accepts: Accepted)

  /** The constructor's parameters, in the order it checks them. */
  const Params: seq<Param> :=
    [Param("tenantId", StringType), Param("principal", StringOrNullType), Param("credentials", StringOrNullType)]

  /** The error message template `<param> parameter of type "<type>" is required`. */
  function RequiredMessage(p: Param): string {
    p.name + " parameter of type \"" + TypeText(p.accepts) + "\" is required"
  }

  /** Whether a (defaulted) argument has a type in the parameter's accepted union. */
  predicate Accepts(p: Param, v: JsValue) {
    match p.accepts
    case StringType => v.Str?
    case StringOrNullType => StringOrNull(v)
  }

  /** The index of the first parameter, from `i` on, whose argument is rejected. */
  function FirstRejected(args: seq<JsValue>, i: nat): (r: Option<nat>)
    requires |args| == |Params| && i <= |Params|
    ensures r.Some? ==>
      && i <= r.value < |Params|
      && !Accepts(Params[r.value], args[r.value])
      && forall j :: i <= j < r.value ==> Accepts(Params[j], args[j])
    ensures r.None? ==> forall j :: i <= j < |Params| ==> Accepts(Params[j], args[j])
    decreases |Params| - i
  {
    if i == |Params| then None
    else if !Accepts(Params[i], args[i]) then Some(i)
    else FirstRejected(args, i + 1)
  }

  /**
   * The constructor against the parameter table: it fails exactly when some
   * argument is rejected, and then with the message naming the first one.
   */
  lemma NewReportsFirstRejected(tenantId: JsValue, principal: JsValue, credentials: JsValue)
    ensures var first := FirstRejected([tenantId, DefaultNull(principal), DefaultNull(credentials)], 0);
      New(tenantId, principal, credentials) ==
        if first.Some? then Failure(RequiredMessage(Params[first.value]))
        else Success(BasicAuth(tenantId.s, DefaultNull(principal), DefaultNull(credentials), None, None))
  {
    var args := [tenantId, DefaultNull(principal), DefaultNull(credentials)];
    MessagesFollowTemplate();
    if !Accepts(Params[0], args[0]) {
      assert FirstRejected(args, 0) == Some(0);
    } else if !Accepts(Params[1], args[1]) {
      assert FirstRejected(args, 0) == Some(1);
    } else if !Accepts(Params[2], args[2]) {
      assert FirstRejected(args, 0) == Some(2);
    } else {
      assert FirstRejected(args, 0) == None;
    }
  }

  /** The three literal messages are the template filled in from the parameter table. */
  lemma MessagesFollowTemplate()
    ensures RequiredMessage(Params[0]) == TenantIdRequired
    ensures RequiredMessage(Params[1]) == PrincipalRequired
    ensures RequiredMessage(Params[2]) == CredentialsRequired
  {
    PrincipalMessage();
    CredentialsMessage();
  }

  lemma PrincipalMessage()
    ensures RequiredMessage(Params[1]) == PrincipalRequired
  {
    var p := Params[1];
    assert p.name == "principal" && TypeText(p.accepts) == "string|null";
    var m := RequiredMessage(p);
    assert |m| == |PrincipalRequired|;
    forall i | 0 <= i < |m| ensures m[i] == PrincipalRequired[i] {}
  }

  lemma CredentialsMessage()
    ensures RequiredMessage(Params[2]) == CredentialsRequired
  {
    var p := Params[2];
    assert p.name == "credentials" && TypeText(p.accepts) == "string|null";
    var m := RequiredMessage(p);
    assert |m| == |CredentialsRequired|;
    forall i | 0 <= i < |m| ensures m[i] == CredentialsRequired[i] {}
  }

  /** Any string is a tenantId, the empty one included; omitted optionals become null. */
  lemma NewWithTenantIdOnly(tenantId: string)
    ensures New(Str(tenantId), Undefined, Undefined) == Success(BasicAuth(tenantId, Null, Null, None, None))
  {
  }

  /** Constructing again from a constructed object's fields gives the same object. */
  lemma NewFromOwnFields(tenantId: JsValue, principal: JsValue, credentials: JsValue)
    requires New(tenantId, principal, credentials).Success?
    ensures var b := New(tenantId, principal, credentials).value;
      New(Str(b.tenantId), b.principal, b.credentials) == Success(b)
  {
  }
}
