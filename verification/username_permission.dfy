/**
 * The username permission plugin: an action is allowed when the message names
 * something and that name contains the connection's user id. The callback's
 * arguments are returned.
 */
module UsernamePermission {
  import opened Base
  import opened Protocol
  import Text

  /** The connection a message arrived on; only its user id is read. */
  datatype SocketWrapper = SocketWrapper(userId: string)

  /** The arguments passed to the permission callback. */
  datatype PermissionCall<P> = PermissionCall(
    socketWrapper: SocketWrapper, message: Message, passItOn: P, error: Option<string>, allowed: bool)

  const DenialText := "Error, name doesn't include the username or message doesn't have a name"

  /** `message.name` is present and non-empty (JavaScript truthiness of a string). */
  predicate HasName(message: Message) {
    message.name.Some? && message.name.value != ""
  }

  /** `canPerformAction(socketWrapper, message, callback, passItOn)`. */
  function CanPerformAction<P>(socketWrapper: SocketWrapper, message: Message, passItOn: P): (call: PermissionCall<P>)
    ensures call.allowed <==> HasName(message) && Text.IsSubstring(socketWrapper.userId, message.name.value)
    ensures call.allowed ==> call.error == None
    ensures !call.allowed ==> call.error == Some(DenialText)
    ensures call.socketWrapper == socketWrapper && call.message == message && call.passItOn == passItOn
  {
    if HasName(message) && Text.Includes(message.name.value, socketWrapper.userId) then
      PermissionCall(socketWrapper, message, passItOn, None, true)
    else
      PermissionCall(socketWrapper, message, passItOn, Some(DenialText), false)
  }

  /** A message without a name, or with an empty one, is denied whoever asks. */
  lemma NamelessDenied<P>(socketWrapper: SocketWrapper, message: Message, passItOn: P)
    requires !HasName(message)
    ensures CanPerformAction(socketWrapper, message, passItOn) ==
            PermissionCall(socketWrapper, message, passItOn, Some(DenialText), false)
  {
  }

  /** An empty user id is contained in every name, so any named message is allowed. */
  lemma EmptyUserIdAllowsAnyName<P>(message: Message, passItOn: P)
    requires HasName(message)
    ensures CanPerformAction(SocketWrapper(""), message, passItOn).allowed
  {
    Text.EmptyIsIncluded(message.name.value);
  }

  /** The user's own name as the record name is allowed, as is any name that embeds it. */
  lemma EmbeddedUserIdAllowed<P>(userId: string, prefix: string, suffix: string, message: Message, passItOn: P)
    requires message.name == Some(prefix + userId + suffix) && prefix + userId + suffix != ""
    ensures CanPerformAction(SocketWrapper(userId), message, passItOn).allowed
  {
    var name := prefix + userId + suffix;
    assert name[|prefix|..|prefix| + |userId|] == userId;
    assert Text.OccursAt(name, userId, |prefix|);
  }
}

/**
 * The repository-root variant of the username permission plugin: the same rule
 * with the user name passed as an explicit argument.
 */
module RootUsernamePermission {
  import opened Base
  import opened Protocol
  import Text
  import UsernamePermission

  /** The callback's arguments; the socket wrapper is passed through untouched. */
  datatype PermissionCall<S, P> = PermissionCall(
    socketWrapper: S, message: Message, passItOn: P, error: Option<string>, allowed: bool)

  /** `canPerformAction(username, message, callback, authData, socketWrapper, passItOn)`. */
  function CanPerformAction<A, S, P>(username: string, message: Message, authData: A, socketWrapper: S, passItOn: P): (call: PermissionCall<S, P>)
    ensures call.allowed <==> UsernamePermission.HasName(message) && Text.IsSubstring(username, message.name.value)
    ensures call.allowed ==> call.error == None
    ensures !call.allowed ==> call.error == Some(UsernamePermission.DenialText)
    ensures call.socketWrapper == socketWrapper && call.message == message && call.passItOn == passItOn
  {
    if UsernamePermission.HasName(message) && Text.Includes(message.name.value, username) then
      PermissionCall(socketWrapper, message, passItOn, None, true)
    else
      PermissionCall(socketWrapper, message, passItOn, Some(UsernamePermission.DenialText), false)
  }

  /** The root variant decides exactly as the `src` variant does for a socket carrying that user id. */
  lemma AgreesWithSrcVariant<A, S, P>(username: string, message: Message, authData: A, socketWrapper: S, passItOn: P)
    ensures CanPerformAction(username, message, authData, socketWrapper, passItOn).allowed ==
            UsernamePermission.CanPerformAction(UsernamePermission.SocketWrapper(username), message, passItOn).allowed
    ensures CanPerformAction(username, message, authData, socketWrapper, passItOn).error ==
            UsernamePermission.CanPerformAction(UsernamePermission.SocketWrapper(username), message, passItOn).error
  {
  }
}
