/** The decision whether a client may leave its will message behind: either an
    extension's will authorizer answers, or the connection's static permissions do. */
module WillAuthorization {
  import opened Options
  import opened Mqtt
  import opened Permissions

  /** What a will authorizer reports back for the will publish of a CONNECT. */
  datatype AuthorizerResult =
    | AuthorizeSuccessfully
      /** Refused; the extension may name the disconnect reason to report. */
    | FailAuthorization(disconnectReason: Option<DisconnectReason>)
      /** No decision: fall back to the connection's permissions. */
    | NextExtensionOrDefault

  datatype Verdict = Granted | Refused(reason: RefusalReason)

  /** The CONNACK reason for an explicitly named disconnect reason: the same code when
      it is also a refusal code of CONNACK, otherwise "not authorized". */
  function ExplicitReason(d: DisconnectReason): (r: RefusalReason)
    ensures d.InConnack() && d != Success ==> r == d
    ensures !(d.InConnack() && d != Success) ==> r == NotAuthorized
  {
    if d.InConnack() && d != Success then d else NotAuthorized
  }

  /** The verdict of the connection's permissions for the will topic; a connection
      without permissions may not publish a will. */
  function PermissionVerdict(permissions: Option<DefaultPermissions>, topic: string): (v: Verdict)
    ensures v.Granted? <==> permissions.Some? && Evaluate(permissions.value, topic) == Allow
    ensures v.Refused? ==> v.reason == NotAuthorized
  {
    match permissions
    case None => Refused(NotAuthorized)
    case Some(p) => if Evaluate(p, topic) == Allow then Granted else Refused(NotAuthorized)
  }

  /** The verdict once the will authorizer has answered. */
  function AuthorizerVerdict(result: AuthorizerResult, permissions: Option<DefaultPermissions>, topic: string): (v: Verdict)
    ensures result.AuthorizeSuccessfully? ==> v == Granted
    ensures result.FailAuthorization? ==> v.Refused?
    ensures result.FailAuthorization? && result.disconnectReason.None? ==> v == Refused(NotAuthorized)
    ensures result.FailAuthorization? && result.disconnectReason.Some? ==>
      v == Refused(ExplicitReason(result.disconnectReason.value))
    ensures result.NextExtensionOrDefault? ==> v == PermissionVerdict(permissions, topic)
  {
    match result
    case AuthorizeSuccessfully => Granted
    case FailAuthorization(d) =>
      (match d
       case None => Refused(NotAuthorized)
       case Some(reason) => Refused(ExplicitReason(reason)))
    case NextExtensionOrDefault => PermissionVerdict(permissions, topic)
  }

  /** The verdict without any will authorizer registered: permissions decide, and a
      connection whose permissions are still unset is treated as a fresh permission set. */
  function StaticVerdict(permissions: Option<DefaultPermissions>, topic: string): (v: Verdict)
    ensures permissions.None? ==> v == Granted
    ensures permissions.Some? ==> v == PermissionVerdict(permissions, topic)
  {
    PermissionVerdict(Some(permissions.GetOr(EmptyPermissions)), topic)
  }

  /** An authorizer that defers, on a connection with permissions, leads to exactly the
      verdict the permissions give without any authorizer. */
  lemma DeferringAuthorizerIsTransparent(p: DefaultPermissions, topic: string)
    ensures AuthorizerVerdict(NextExtensionOrDefault, Some(p), topic) == StaticVerdict(Some(p), topic)
  {
  }

  /** Only two ways lead to a granted will once the authorizer answered: it said so, or
      it deferred and the first matching rule (or the default) allows the topic. */
  lemma AuthorizerGrantedIff(result: AuthorizerResult, permissions: Option<DefaultPermissions>, topic: string)
    ensures AuthorizerVerdict(result, permissions, topic).Granted? <==>
      result.AuthorizeSuccessfully?
      || (result.NextExtensionOrDefault? && permissions.Some?
          && ((exists i :: IsFirstMatch(permissions.value.rules, topic, i)
                           && permissions.value.rules[i].kind == Allow)
              || (NoMatch(permissions.value.rules, topic) && permissions.value.defaultBehaviour == Allow)))
  {
    if permissions.Some? {
      EvaluateAllowIff(permissions.value, topic);
    }
  }

  /** A refusal reason the authorizer names is passed on unchanged, whatever the
      connection's permissions and the will topic; any other named reason becomes
      "not authorized". */
  lemma ExplicitReasonPropagates(d: DisconnectReason, permissions: Option<DefaultPermissions>, topic: string)
    ensures d.InConnack() && d != Success ==>
      AuthorizerVerdict(FailAuthorization(Some(d)), permissions, topic) == Refused(d)
    ensures !(d.InConnack() && d != Success) ==>
      AuthorizerVerdict(FailAuthorization(Some(d)), permissions, topic) == Refused(NotAuthorized)
  {
  }
}
