/**
 * The message that starts a remote authentication: how the collector fills it in, and how the verifier
 * reads it. Attributes are a table from keys to typed values; a getter succeeds on a key that holds a
 * value of its type.
 */
module RemoteMessages {
  import opened Common

  type Attrs = map<nat, Value>

  datatype Value =
    | Int32(int32: int)
    | Uint32(uint32: nat)
    | Bytes(bytes: seq<nat>)
    | Text(text: string)
    | List(items: seq<map<nat, Value>>)

  const ATTR_CALLER_NAME := 100015
  const ATTR_AUTH_TYPE := 100024
  const ATTR_USER_ID := 100043
  const ATTR_EXECUTOR_SENSOR_HINT := 100046
  const ATTR_EXECUTOR_MATCHER := 100047
  const ATTR_MSG_TYPE := 100059
  const ATTR_EXECUTOR_ROLE := 100063
  const ATTR_PUBLIC_KEY := 100069
  const ATTR_EXECUTOR_REGISTER_INFO_LIST := 100070
  const ATTR_ESL := 100071
  const ATTR_CHALLENGE := 100072
  const ATTR_REMOTE_EXECUTOR_INFO := 100073
  const ATTR_AUTH_TRUST_LEVEL := 100075
  const ATTR_DEVICE_UDID := 100080
  const ATTR_COLLECTOR_NETWORK_ID := 100081
  const ATTR_COLLECTOR_TOKEN_ID := 100082
  const ATTR_CALLER_TYPE := 100085

  const COLLECTOR := 1
  const START_REMOTE_AUTH := 1

  // ----- Getters -----

  function GetInt32(a: Attrs, key: nat): Option<int> {
    if key in a && a[key].Int32? then Some(a[key].int32) else None
  }

  function GetUint32(a: Attrs, key: nat): Option<nat> {
    if key in a && a[key].Uint32? then Some(a[key].uint32) else None
  }

  function GetBytes(a: Attrs, key: nat): Option<seq<nat>> {
    if key in a && a[key].Bytes? then Some(a[key].bytes) else None
  }

  function GetText(a: Attrs, key: nat): Option<string> {
    if key in a && a[key].Text? then Some(a[key].text) else None
  }

  function GetList(a: Attrs, key: nat): Option<seq<Attrs>> {
    if key in a && a[key].List? then Some(a[key].items) else None
  }

  // ----- What is sent -----

  datatype ExecutorInfo = ExecutorInfo(
    authType: int, role: int, sensorHint: nat, matcher: nat, esl: int, maxTemplateAcl: nat,
    publicKey: seq<nat>, deviceUdid: string, signedInfo: seq<nat>)

  datatype AuthParam = AuthParam(userId: int, challenge: seq<nat>, authType: int, trustLevel: int)

  /** What the invoker holds besides the executors. */
  datatype Request = Request(param: AuthParam, tokenId: nat, callerName: string, callerType: int, networkId: string)

  /** What the trusted engine and the device manager answer, and the executors registered locally. */
  datatype Environment = Environment(
    engineResult: int, signedInfo: seq<nat>, localUdid: Option<string>, nodes: seq<ExecutorInfo>)

  predicate Offered(env: Environment, authType: int, role: int, node: ExecutorInfo) {
    node.authType == authType && node.role == role && env.localUdid == Some(node.deviceUdid)
  }

  /** The local executors of that type and role, in enumeration order. */
  function OfferedNodes(env: Environment, authType: int, role: int, n: nat): seq<ExecutorInfo>
    requires n <= |env.nodes|
  {
    if n == 0 then []
    else
      OfferedNodes(env, authType, role, n - 1) +
      if Offered(env, authType, role, env.nodes[n - 1])
      then [env.nodes[n - 1].(maxTemplateAcl := 0, signedInfo := [])] else []
  }

  /** Who is offered: of the registered executors those of that type, role and of this device, each once and
      in the order of registration, as registered but for its template ACL and signed information. */
  lemma {:induction false} OfferedInOrder(env: Environment, authType: int, role: int, n: nat) returns (places: seq<nat>)
    requires n <= |env.nodes|
    ensures var es := OfferedNodes(env, authType, role, n);
            && |places| == |es|
            && (forall k | 0 <= k < |es| :: places[k] < n && var node := env.nodes[places[k]];
                  && node.authType == authType && node.role == role
                  && es[k] == ExecutorInfo(authType, role, node.sensorHint, node.matcher, node.esl, 0,
                                           node.publicKey, node.deviceUdid, [])
                  && env.localUdid == Some(es[k].deviceUdid))
    ensures forall j, k | 0 <= j < k < |places| :: places[j] < places[k]
    ensures forall i | 0 <= i < n && env.nodes[i].authType == authType && env.nodes[i].role == role
                       && env.localUdid == Some(env.nodes[i].deviceUdid) :: i in places
  {
    if n == 0 {
      places := [];
    } else {
      var before := OfferedInOrder(env, authType, role, n - 1);
      places := before + if Offered(env, authType, role, env.nodes[n - 1]) then [n - 1] else [];
    }
  }

  /** What arrives of an executor: the template ACL is gone, the signed information is attached. */
  function Received(e: ExecutorInfo, signedInfo: seq<nat>): ExecutorInfo {
    e.(maxTemplateAcl := 0, signedInfo := signedInfo)
  }

  function ReceivedAll(es: seq<ExecutorInfo>, signedInfo: seq<nat>): seq<ExecutorInfo> {
    seq(|es|, i requires 0 <= i < |es| => Received(es[i], signedInfo))
  }

  class Attributes {
    var values: Attrs

    constructor ()
      ensures values == map[]
    {
      values := map[];
    }

    method Set(key: nat, value: Value) returns (ok: bool)
      modifies this
      ensures ok && values == old(values)[key := value]
    {
      values := values[key := value];
      return true;
    }
  }

  // ----- Writing -----

  ghost predicate HoldsExecutor(a: Attrs, e: ExecutorInfo) {
    && GetInt32(a, ATTR_AUTH_TYPE) == Some(e.authType)
    && GetInt32(a, ATTR_EXECUTOR_ROLE) == Some(e.role)
    && GetUint32(a, ATTR_EXECUTOR_SENSOR_HINT) == Some(e.sensorHint)
    && GetUint32(a, ATTR_EXECUTOR_MATCHER) == Some(e.matcher)
    && GetInt32(a, ATTR_ESL) == Some(e.esl)
    && GetBytes(a, ATTR_PUBLIC_KEY) == Some(e.publicKey)
    && GetText(a, ATTR_DEVICE_UDID) == Some(e.deviceUdid)
  }

  ghost predicate HoldsExecutors(items: seq<Attrs>, es: seq<ExecutorInfo>) {
    |items| == |es| && forall i | 0 <= i < |es| :: HoldsExecutor(items[i], es[i])
  }

  ghost predicate HoldsParam(a: Attrs, p: AuthParam) {
    && GetInt32(a, ATTR_USER_ID) == Some(p.userId)
    && GetBytes(a, ATTR_CHALLENGE) == Some(p.challenge)
    && GetInt32(a, ATTR_AUTH_TYPE) == Some(p.authType)
    && GetInt32(a, ATTR_AUTH_TRUST_LEVEL) == Some(p.trustLevel)
  }

  /** Same values except under the keys of the authentication parameters. */
  ghost predicate AgreeOffParam(a: Attrs, b: Attrs) {
    forall key | key !in {ATTR_USER_ID, ATTR_CHALLENGE, ATTR_AUTH_TYPE, ATTR_AUTH_TRUST_LEVEL} ::
      (key in a <==> key in b) && (key in a ==> a[key] == b[key])
  }

  ghost predicate HoldsReply(a: Attrs, es: seq<ExecutorInfo>, signedInfo: seq<nat>) {
    && GetBytes(a, ATTR_REMOTE_EXECUTOR_INFO) == Some(signedInfo)
    && var items := GetList(a, ATTR_EXECUTOR_REGISTER_INFO_LIST);
       items.Some? && HoldsExecutors(items.value, es)
  }

  lemma ExecutorHeld(a: Attrs, e: ExecutorInfo)
    ensures HoldsExecutor(a[ATTR_AUTH_TYPE := Int32(e.authType)][ATTR_EXECUTOR_ROLE := Int32(e.role)]
                           [ATTR_EXECUTOR_SENSOR_HINT := Uint32(e.sensorHint)]
                           [ATTR_EXECUTOR_MATCHER := Uint32(e.matcher)][ATTR_ESL := Int32(e.esl)]
                           [ATTR_PUBLIC_KEY := Bytes(e.publicKey)][ATTR_DEVICE_UDID := Text(e.deviceUdid)], e)
  {
  }

  method SetExecutorInfoToAttributes(e: ExecutorInfo, attr: Attributes) returns (ok: bool)
    modifies attr
    ensures ok && HoldsExecutor(attr.values, e)
  {
    hide HoldsExecutor;
    ExecutorHeld(attr.values, e);
    ok := attr.Set(ATTR_AUTH_TYPE, Int32(e.authType));
    if !ok { return false; }
    ok := attr.Set(ATTR_EXECUTOR_ROLE, Int32(e.role));
    if !ok { return false; }
    ok := attr.Set(ATTR_EXECUTOR_SENSOR_HINT, Uint32(e.sensorHint));
    if !ok { return false; }
    ok := attr.Set(ATTR_EXECUTOR_MATCHER, Uint32(e.matcher));
    if !ok { return false; }
    ok := attr.Set(ATTR_ESL, Int32(e.esl));
    if !ok { return false; }
    ok := attr.Set(ATTR_PUBLIC_KEY, Bytes(e.publicKey));
    if !ok { return false; }
    ok := attr.Set(ATTR_DEVICE_UDID, Text(e.deviceUdid));
  }

  method SetExecutorInfoArrayToAttributes(es: seq<ExecutorInfo>, attr: Attributes) returns (ok: bool)
    modifies attr
    ensures ok
    ensures var items := GetList(attr.values, ATTR_EXECUTOR_REGISTER_INFO_LIST);
            items.Some? && HoldsExecutors(items.value, es)
    ensures forall key | key != ATTR_EXECUTOR_REGISTER_INFO_LIST ::
              (key in attr.values <==> key in old(attr.values)) &&
              (key in attr.values ==> attr.values[key] == old(attr.values)[key])
  {
    var items: seq<Attrs> := [];
    for k := 0 to |es|
      invariant HoldsExecutors(items, es[..k])
      invariant attr.values == old(attr.values)
    {
      var item := new Attributes();
      ok := SetExecutorInfoToAttributes(es[k], item);
      if !ok { return false; }
      items := items + [item.values];
    }
    assert es[..|es|] == es;
    ok := attr.Set(ATTR_EXECUTOR_REGISTER_INFO_LIST, List(items));
  }

  method EncodeQueryExecutorInfoReply(es: seq<ExecutorInfo>, signedInfo: seq<nat>, attr: Attributes) returns (ok: bool)
    modifies attr
    ensures ok <==> es != []
    ensures ok ==> HoldsReply(attr.values, es, signedInfo)
  {
    if |es| == 0 { return false; }
    ok := attr.Set(ATTR_REMOTE_EXECUTOR_INFO, Bytes(signedInfo));
    if !ok { return false; }
    ok := SetExecutorInfoArrayToAttributes(es, attr);
  }

  method EncodeAuthParam(p: AuthParam, attr: Attributes) returns (ok: bool)
    modifies attr
    ensures ok && HoldsParam(attr.values, p) && AgreeOffParam(attr.values, old(attr.values))
  {
    ok := attr.Set(ATTR_USER_ID, Int32(p.userId));
    if !ok { return false; }
    ok := attr.Set(ATTR_CHALLENGE, Bytes(p.challenge));
    if !ok { return false; }
    ok := attr.Set(ATTR_AUTH_TYPE, Int32(p.authType));
    if !ok { return false; }
    ok := attr.Set(ATTR_AUTH_TRUST_LEVEL, Int32(p.trustLevel));
  }

  /** Picks the executors to offer and writes them together with the signed information. */
  method GetQueryExecutorInfoReply(authTypes: seq<int>, role: int, env: Environment, attr: Attributes)
    returns (result: int)
    modifies attr
    ensures result == QueryResult(env, authTypes, role)
    ensures result == SUCCESS ==>
              |authTypes| == 1 &&
              HoldsReply(attr.values, OfferedNodes(env, authTypes[0], role, |env.nodes|), env.signedInfo)
  {
    if |authTypes| != 1 { return INVALID_PARAMETERS; }
    if env.engineResult == DEVICE_CAPABILITY_NOT_SUPPORT || env.engineResult == REMOTE_DEVICE_CONNECTION_FAIL {
      return env.engineResult;
    }
    if env.engineResult != SUCCESS { return GENERAL_ERROR; }
    if env.localUdid == None { return GENERAL_ERROR; }
    var es: seq<ExecutorInfo> := [];
    for k := 0 to |env.nodes|
      invariant es == OfferedNodes(env, authTypes[0], role, k)
    {
      var node := env.nodes[k];
      if node.authType != authTypes[0] || node.role != role || env.localUdid.value != node.deviceUdid { continue; }
      es := es + [ExecutorInfo(node.authType, node.role, node.sensorHint, node.matcher, node.esl, 0, node.publicKey,
                               node.deviceUdid, [])];
    }
    var ok := EncodeQueryExecutorInfoReply(es, env.signedInfo, attr);
    result := if ok then SUCCESS else GENERAL_ERROR;
  }

  function QueryResult(env: Environment, authTypes: seq<int>, role: int): int {
    if |authTypes| != 1 then INVALID_PARAMETERS
    else if env.engineResult in {DEVICE_CAPABILITY_NOT_SUPPORT, REMOTE_DEVICE_CONNECTION_FAIL} then env.engineResult
    else if env.engineResult != SUCCESS || env.localUdid == None then GENERAL_ERROR
    else if OfferedNodes(env, authTypes[0], role, |env.nodes|) == [] then GENERAL_ERROR
    else SUCCESS
  }

  /** When the query succeeds, and with which error it fails otherwise. */
  lemma QueryResultIs(env: Environment, authTypes: seq<int>, role: int)
    ensures var result := QueryResult(env, authTypes, role);
            && (result == SUCCESS <==>
                  && |authTypes| == 1 && env.engineResult == SUCCESS
                  && exists node | node in env.nodes ::
                       node.authType == authTypes[0] && node.role == role && env.localUdid == Some(node.deviceUdid))
            && (result == INVALID_PARAMETERS <==> |authTypes| != 1)
            && (result == 1008 <==> |authTypes| == 1 && env.engineResult == 1008)
            && (result == 1009 <==> |authTypes| == 1 && env.engineResult == 1009)
            && result in {SUCCESS, INVALID_PARAMETERS, GENERAL_ERROR, 1008, 1009}
  {
    if |authTypes| == 1 {
      var places := OfferedInOrder(env, authTypes[0], role, |env.nodes|);
      var es := OfferedNodes(env, authTypes[0], role, |env.nodes|);
      if es != [] {
        assert env.nodes[places[0]] in env.nodes;
      }
    }
  }

  ghost predicate HoldsRequest(a: Attrs, r: Request, es: seq<ExecutorInfo>, signedInfo: seq<nat>) {
    && HoldsReply(a, es, signedInfo)
    && HoldsParam(a, r.param)
    && GetInt32(a, ATTR_MSG_TYPE) == Some(START_REMOTE_AUTH)
    && GetUint32(a, ATTR_COLLECTOR_TOKEN_ID) == Some(r.tokenId)
    && GetText(a, ATTR_CALLER_NAME) == Some(r.callerName)
    && GetInt32(a, ATTR_CALLER_TYPE) == Some(r.callerType)
    && GetText(a, ATTR_COLLECTOR_NETWORK_ID) == Some(r.networkId)
  }

  /** No key of the start message overwrites another one. */
  lemma KeysDoNotClash(reply: Attrs, coded: Attrs, r: Request, es: seq<ExecutorInfo>, signedInfo: seq<nat>)
    requires HoldsReply(reply, es, signedInfo) && HoldsParam(coded, r.param)
    requires AgreeOffParam(coded, reply[ATTR_MSG_TYPE := Int32(START_REMOTE_AUTH)])
    ensures HoldsRequest(coded[ATTR_COLLECTOR_TOKEN_ID := Uint32(r.tokenId)][ATTR_CALLER_NAME := Text(r.callerName)]
                              [ATTR_CALLER_TYPE := Int32(r.callerType)][ATTR_COLLECTOR_NETWORK_ID := Text(r.networkId)],
                         r, es, signedInfo)
  {
  }

  /** Builds the start message, or says which error the invoker keeps. */
  method SendRequest(r: Request, env: Environment) returns (message: Option<Attrs>, error: int)
    ensures error == QueryResult(env, [r.param.authType], COLLECTOR)
    ensures message.Some? <==> QueryResult(env, [r.param.authType], COLLECTOR) == SUCCESS
    ensures message.Some? ==>
              var offered := OfferedNodes(env, r.param.authType, COLLECTOR, |env.nodes|);
              HoldsRequest(message.value, r, offered, env.signedInfo)
  {
    hide HoldsReply, HoldsParam, HoldsRequest, AgreeOffParam, OfferedNodes, QueryResult;
    var attr := new Attributes();
    var result := GetQueryExecutorInfoReply([r.param.authType], COLLECTOR, env, attr);
    if result != SUCCESS { return None, result; }
    ghost var reply := attr.values;
    var setMsgType := attr.Set(ATTR_MSG_TYPE, Int32(START_REMOTE_AUTH));
    var encodedParam := EncodeAuthParam(r.param, attr);
    KeysDoNotClash(reply, attr.values, r, OfferedNodes(env, r.param.authType, COLLECTOR, |env.nodes|), env.signedInfo);
    var setTokenId := attr.Set(ATTR_COLLECTOR_TOKEN_ID, Uint32(r.tokenId));
    var setCallerName := attr.Set(ATTR_CALLER_NAME, Text(r.callerName));
    var setCallerType := attr.Set(ATTR_CALLER_TYPE, Int32(r.callerType));
    var setNetworkId := attr.Set(ATTR_COLLECTOR_NETWORK_ID, Text(r.networkId));
    var allSet := setMsgType && encodedParam && setTokenId && setCallerName && setCallerType && setNetworkId;
    if !allSet { return None, SUCCESS; }
    return Some(attr.values), SUCCESS;
  }

  // ----- Reading -----

  function DecodeExecutor(a: Attrs, signedInfo: seq<nat>): Option<ExecutorInfo> {
    var authType, role, hint := GetInt32(a, ATTR_AUTH_TYPE), GetInt32(a, ATTR_EXECUTOR_ROLE),
                                GetUint32(a, ATTR_EXECUTOR_SENSOR_HINT);
    var matcher, esl := GetUint32(a, ATTR_EXECUTOR_MATCHER), GetInt32(a, ATTR_ESL);
    var key, udid := GetBytes(a, ATTR_PUBLIC_KEY), GetText(a, ATTR_DEVICE_UDID);
    if authType.None? || role.None? || hint.None? || matcher.None? || esl.None? || key.None? || udid.None? then None
    else Some(ExecutorInfo(authType.value, role.value, hint.value, matcher.value, esl.value, 0, key.value, udid.value,
                           signedInfo))
  }

  /** Fails as a whole if any item does. */
  function DecodeExecutors(items: seq<Attrs>, signedInfo: seq<nat>): Option<seq<ExecutorInfo>> {
    if items == [] then Some([])
    else
      var n := |items| - 1;
      var front, last := DecodeExecutors(items[..n], signedInfo), DecodeExecutor(items[n], signedInfo);
      if front.None? || last.None? then None else Some(front.value + [last.value])
  }

  method GetExecutorInfoArrayFromAttributes(a: Attrs, signedInfo: seq<nat>) returns (es: Option<seq<ExecutorInfo>>)
    ensures var items := GetList(a, ATTR_EXECUTOR_REGISTER_INFO_LIST);
            es == if items.None? then None else DecodeExecutors(items.value, signedInfo)
  {
    var got := GetList(a, ATTR_EXECUTOR_REGISTER_INFO_LIST);
    if got.None? { return None; }
    var items, list: seq<ExecutorInfo> := got.value, [];
    for k := 0 to |items|
      invariant DecodeExecutors(items[..k], signedInfo) == Some(list)
    {
      assert items[..k + 1][..k] == items[..k];
      var e := DecodeExecutor(items[k], signedInfo);
      if e.None? {
        FailsAsAWhole(items, k, signedInfo);
        return None;
      }
      list := list + [e.value];
    }
    assert items[..|items|] == items;
    return Some(list);
  }

  lemma {:induction false} FailsAsAWhole(items: seq<Attrs>, k: nat, signedInfo: seq<nat>)
    requires k < |items| && DecodeExecutor(items[k], signedInfo).None?
    ensures DecodeExecutors(items, signedInfo).None?
  {
    if k < |items| - 1 {
      FailsAsAWhole(items[..|items| - 1], k, signedInfo);
    }
  }

  method DecodeQueryExecutorInfoReply(a: Attrs) returns (es: Option<seq<ExecutorInfo>>)
    ensures es == ReplyOf(a)
  {
    var signedInfo := GetBytes(a, ATTR_REMOTE_EXECUTOR_INFO);
    if signedInfo.None? { return None; }
    es := GetExecutorInfoArrayFromAttributes(a, signedInfo.value);
  }

  function ReplyOf(a: Attrs): Option<seq<ExecutorInfo>> {
    var signedInfo, items := GetBytes(a, ATTR_REMOTE_EXECUTOR_INFO), GetList(a, ATTR_EXECUTOR_REGISTER_INFO_LIST);
    if signedInfo.None? || items.None? then None else DecodeExecutors(items.value, signedInfo.value)
  }

  method DecodeAuthParam(a: Attrs) returns (p: Option<AuthParam>)
    ensures p.Some? ==> HoldsParam(a, p.value)
    ensures p.None? ==> forall q :: !HoldsParam(a, q)
  {
    var userId := GetInt32(a, ATTR_USER_ID);
    if userId.None? { return None; }
    var challenge := GetBytes(a, ATTR_CHALLENGE);
    if challenge.None? { return None; }
    var authType := GetInt32(a, ATTR_AUTH_TYPE);
    if authType.None? { return None; }
    var trustLevel := GetInt32(a, ATTR_AUTH_TRUST_LEVEL);
    if trustLevel.None? { return None; }
    return Some(AuthParam(userId.value, challenge.value, authType.value, trustLevel.value));
  }

  /** The verifier's reading of a start message; a request for no particular user is one for the active
      user of the verifier. */
  method ProcStartRemoteAuthRequest(a: Attrs, activeUser: Option<int>) returns (r: Option<Request>)
    ensures r.Some? ==> ReadsAs(a, activeUser, r.value)
    ensures r.None? ==> forall q :: !ReadsAs(a, activeUser, q)
  {
    var p := DecodeAuthParam(a);
    if p.None? { return None; }
    var param := p.value;
    if param.userId == INVALID_USER_ID {
      if activeUser.None? { return None; }
      param := param.(userId := activeUser.value);
    }
    var networkId := GetText(a, ATTR_COLLECTOR_NETWORK_ID);
    if networkId.None? { return None; }
    var tokenId := GetUint32(a, ATTR_COLLECTOR_TOKEN_ID);
    if tokenId.None? { return None; }
    var callerName := GetText(a, ATTR_CALLER_NAME);
    if callerName.None? { return None; }
    var callerType := GetInt32(a, ATTR_CALLER_TYPE);
    if callerType.None? { return None; }
    assert HoldsParam(a, p.value);
    return Some(Request(param, tokenId.value, callerName.value, callerType.value, networkId.value));
  }

  ghost predicate ReadsAs(a: Attrs, activeUser: Option<int>, r: Request) {
    && (exists sent :: HoldsParam(a, sent) && ActiveUser(sent.userId, activeUser) == Some(r.param.userId)
                       && r.param == sent.(userId := r.param.userId))
    && GetUint32(a, ATTR_COLLECTOR_TOKEN_ID) == Some(r.tokenId)
    && GetText(a, ATTR_CALLER_NAME) == Some(r.callerName)
    && GetInt32(a, ATTR_CALLER_TYPE) == Some(r.callerType)
    && GetText(a, ATTR_COLLECTOR_NETWORK_ID) == Some(r.networkId)
  }

  function ActiveUser(userId: int, activeUser: Option<int>): Option<int> {
    if userId == INVALID_USER_ID then activeUser else Some(userId)
  }

  // ----- Round trip -----

  lemma {:induction false} ExecutorsRoundTrip(items: seq<Attrs>, es: seq<ExecutorInfo>, signedInfo: seq<nat>)
    requires HoldsExecutors(items, es)
    ensures DecodeExecutors(items, signedInfo) == Some(ReceivedAll(es, signedInfo))
  {
    if es != [] {
      var n := |es| - 1;
      ExecutorsRoundTrip(items[..n], es[..n], signedInfo);
      assert ReceivedAll(es, signedInfo) == ReceivedAll(es[..n], signedInfo) + [Received(es[n], signedInfo)];
    }
  }

  /** Field by field, what arrives of the executors. */
  lemma ReceivedAre(es: seq<ExecutorInfo>, signedInfo: seq<nat>)
    ensures var got := ReceivedAll(es, signedInfo);
            && |got| == |es|
            && forall i | 0 <= i < |es| ::
                 && got[i].authType == es[i].authType && got[i].role == es[i].role
                 && got[i].sensorHint == es[i].sensorHint && got[i].matcher == es[i].matcher
                 && got[i].esl == es[i].esl && got[i].publicKey == es[i].publicKey
                 && got[i].deviceUdid == es[i].deviceUdid
                 && got[i].maxTemplateAcl == 0 && got[i].signedInfo == signedInfo
  {
  }

  lemma SenderReadsAs(a: Attrs, r: Request, es: seq<ExecutorInfo>, signedInfo: seq<nat>, activeUser: Option<int>,
                      q: Request)
    requires HoldsRequest(a, r, es, signedInfo)
    ensures ReadsAs(a, activeUser, q) <==>
            ActiveUser(r.param.userId, activeUser) == Some(q.param.userId)
            && q == r.(param := r.param.(userId := q.param.userId))
  {
    assert HoldsParam(a, r.param);
  }

  /** Sent by one side and read by the other: the request arrives as it was, up to the active user
      standing in for no user, and so do the offered executors in their order, without their template
      ACL and with the signed information attached. */
  method RoundTrip(r: Request, env: Environment, activeUser: Option<int>)
    returns (message: Option<Attrs>, got: Option<Request>, es: Option<seq<ExecutorInfo>>)
    ensures message.Some? <==> QueryResult(env, [r.param.authType], COLLECTOR) == SUCCESS
    ensures message.Some? ==>
              var user := ActiveUser(r.param.userId, activeUser);
              got == if user.None? then None else Some(r.(param := r.param.(userId := user.value)))
    ensures message.Some? && r.param.userId != INVALID_USER_ID ==> got == Some(r)
    ensures message.Some? && r.param.userId == INVALID_USER_ID ==>
              (got.None? <==> activeUser.None?) && (got.Some? ==> got.value.param.userId == activeUser.value)
    ensures message.Some? ==>
              es == Some(ReceivedAll(OfferedNodes(env, r.param.authType, COLLECTOR, |env.nodes|), env.signedInfo))
  {
    var error;
    message, error := SendRequest(r, env);
    got, es := None, None;
    if message.Some? {
      ghost var offered := OfferedNodes(env, r.param.authType, COLLECTOR, |env.nodes|);
      got := ProcStartRemoteAuthRequest(message.value, activeUser);
      es := DecodeQueryExecutorInfoReply(message.value);
      ExecutorsRoundTrip(message.value[ATTR_EXECUTOR_REGISTER_INFO_LIST].items, offered, env.signedInfo);
      forall q: Request {
        SenderReadsAs(message.value, r, offered, env.signedInfo, activeUser, q);
      }
    }
  }
}
