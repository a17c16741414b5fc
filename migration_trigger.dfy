/**
 * The user-migration trigger: the event the identity provider passes in, the
 * two flows that fill in its response from the legacy directory, and the
 * handler that dispatches on the trigger source.
 */
module MigrationTrigger {
  import opened Wrappers
  import opened LegacyDirectory

  const AuthenticationTrigger := "UserMigration_Authentication"
  const ForgotPasswordTrigger := "UserMigration_ForgotPassword"
  const Confirmed := "CONFIRMED"
  const Suppress := "SUPPRESS"

  /** The attribute names a migrated user receives, and the two legacy fields that are deliberately dropped. */
  const Email := "email"
  const EmailVerified := "email_verified"
  const PreferredUsername := "preferred_username"
  const OldUsername := "old_username"
  const CustomTenant := "custom:tenant"

  /** The errors the handler throws. */
  datatype Error = BadCredentials | BadTriggerSource(triggerSource: string)

  /** The message of the thrown error. */
  function Message(e: Error): string
  {
    match e
    case BadCredentials => "Bad credentials"
    case BadTriggerSource(s) => "Bad triggerSource " + s
  }

  /** The error message tells the two errors apart, and names the rejected trigger source. */
  lemma MessageDeterminesError(e1: Error, e2: Error)
    ensures Message(e1) == Message(e2) <==> e1 == e2
  {
    var prefix := "Bad triggerSource ";
    match (e1, e2)
    case (BadTriggerSource(s1), BadTriggerSource(s2)) =>
      assert Message(e1)[|prefix|..] == s1 && Message(e2)[|prefix|..] == s2;
    case (BadCredentials, BadTriggerSource(_)) =>
      assert Message(e1)[4] == 'c' && Message(e2)[4] == 't';
    case (BadTriggerSource(_), BadCredentials) =>
      assert Message(e1)[4] == 't' && Message(e2)[4] == 'c';
    case (BadCredentials, BadCredentials) =>
  }

  /** The response attributes; a value copied from an attribute the legacy user lacks is `undefined`. */
  type UserAttributes = map<string, Option<string>>

  /** The `request` part of the event; the password is only present on sign-in. */
  datatype Request = Request(password: Option<string>)

  /** The `response` part of the event, which the flows fill in place; `None` means not set. */
  class Response {
    var userAttributes: Option<UserAttributes>
    var finalUserStatus: Option<string>
    var messageAction: Option<string>

    constructor (userAttributes: Option<UserAttributes>, finalUserStatus: Option<string>, messageAction: Option<string>)
      ensures this.userAttributes == userAttributes
      ensures this.finalUserStatus == finalUserStatus
      ensures this.messageAction == messageAction
    {
      this.userAttributes := userAttributes;
      this.finalUserStatus := finalUserStatus;
      this.messageAction := messageAction;
    }
  }

  /** One migration event as the identity provider builds it. */
  class MigrationEvent {
    var triggerSource: string
    var userName: string
    var request: Request
    var response: Response

    constructor (triggerSource: string, userName: string, request: Request, response: Response)
      ensures this.triggerSource == triggerSource && this.userName == userName
      ensures this.request == request && this.response == response
    {
      this.triggerSource := triggerSource;
      this.userName := userName;
      this.request := request;
      this.response := response;
    }
  }

  /** The value of a legacy attribute as a property read: `undefined` when absent. */
  function Attribute(user: LegacyUser, name: string): Option<string>
  {
    if name in user.userAttributes then Some(user.userAttributes[name]) else None
  }

  /**
   * The attributes a migrated user gets: exactly email, email_verified and
   * preferred_username, the first and last copied from the legacy user and the
   * middle one the literal "true"; neither the legacy username nor the tenant.
   */
  function MigratedAttributes(user: LegacyUser): (a: UserAttributes)
    ensures a.Keys == {Email, EmailVerified, PreferredUsername}
    ensures a[EmailVerified] == Some("true")
    ensures a[Email] == Attribute(user, Email)
    ensures a[PreferredUsername] == Attribute(user, PreferredUsername)
    ensures OldUsername !in a && CustomTenant !in a
  {
    map[Email := Attribute(user, Email),
        EmailVerified := Some("true"),
        PreferredUsername := Attribute(user, PreferredUsername)]
  }

  /** The two flows the handler can run. */
  datatype Flow = Authentication | ForgotPassword

  /** The switch on the trigger source. */
  function Dispatch(triggerSource: string): (r: Result<Flow, Error>)
    ensures r == Ok(Authentication) <==> triggerSource == AuthenticationTrigger
    ensures r == Ok(ForgotPassword) <==> triggerSource == ForgotPasswordTrigger
    ensures r.Err? <==> triggerSource != AuthenticationTrigger && triggerSource != ForgotPasswordTrigger
    ensures r.Err? ==> r.error == BadTriggerSource(triggerSource)
  {
    if triggerSource == AuthenticationTrigger then Ok(Authentication)
    else if triggerSource == ForgotPasswordTrigger then Ok(ForgotPassword)
    else Err(BadTriggerSource(triggerSource))
  }

  /**
   * What a flow does once the legacy user is known: with no user it throws
   * "Bad credentials" and leaves the response as it was; with a user it sets
   * the migrated attributes and messageAction, sets finalUserStatus exactly when
   * `confirms`, and returns the event itself. The event's own fields never change.
   */
  twostate predicate Migrated(event: MigrationEvent, user: Option<LegacyUser>, confirms: bool, new r: Result<MigrationEvent, Error>)
    reads event, event.response
  {
    && unchanged(event)
    && match user
       case None =>
         && r == Err(BadCredentials)
         && unchanged(event.response)
       case Some(u) =>
         && r == Ok(event)
         && event.response.userAttributes == Some(MigratedAttributes(u))
         && event.response.messageAction == Some(Suppress)
         && event.response.finalUserStatus ==
              if confirms then Some(Confirmed) else old(event.response.finalUserStatus)
  }

  /** Sign-in: authenticate against the legacy directory, then confirm the migrated user. */
  method OnUserMigrationAuthentication(dir: Directory, event: MigrationEvent) returns (r: Result<MigrationEvent, Error>)
    modifies event.response
    ensures Migrated(event, AuthenticateUser(dir, event.userName, event.request.password), true, r)
  {
    var user := AuthenticateUser(dir, event.userName, event.request.password);
    if user.None? {
      return Err(BadCredentials);
    }
    event.response.userAttributes := Some(MigratedAttributes(user.value));
    event.response.finalUserStatus := Some(Confirmed);
    event.response.messageAction := Some(Suppress);
    r := Ok(event);
  }

  /** Password reset: look the user up without any password check; finalUserStatus is not touched. */
  method OnUserMigrationForgotPassword(dir: Directory, event: MigrationEvent) returns (r: Result<MigrationEvent, Error>)
    modifies event.response
    ensures Migrated(event, LookupUser(dir, event.userName), false, r)
  {
    var user := LookupUser(dir, event.userName);
    if user.None? {
      return Err(BadCredentials);
    }
    event.response.userAttributes := Some(MigratedAttributes(user.value));
    event.response.messageAction := Some(Suppress);
    r := Ok(event);
  }

  /**
   * The trigger's entry point: runs the flow the trigger source names, or
   * throws "Bad triggerSource ..." without running either flow.
   */
  method Handler(dir: Directory, event: MigrationEvent) returns (r: Result<MigrationEvent, Error>)
    modifies event.response
    ensures Dispatch(event.triggerSource) == Ok(Authentication) ==>
      Migrated(event, AuthenticateUser(dir, event.userName, event.request.password), true, r)
    ensures Dispatch(event.triggerSource) == Ok(ForgotPassword) ==>
      Migrated(event, LookupUser(dir, event.userName), false, r)
    ensures Dispatch(event.triggerSource).Err? ==>
      && r == Err(BadTriggerSource(event.triggerSource))
      && unchanged(event) && unchanged(event.response)
  {
    match Dispatch(event.triggerSource)
    case Ok(Authentication) =>
      r := OnUserMigrationAuthentication(dir, event);
    case Ok(ForgotPassword) =>
      r := OnUserMigrationForgotPassword(dir, event);
    case Err(e) =>
      r := Err(e);
  }
}
