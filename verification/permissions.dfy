/** The runtime-permission requester a screen remembers (permissions/Permissions.kt).

    The caller's two callbacks are opaque handles; invoking one, and launching
    the platform's permission dialog, are returned as effects for the caller
    to carry out. The platform's answers arrive as calls to `OnResult`. */
module Permissions {
  import opened Wrappers

  /** A callback the caller supplied. */
  datatype Callback = Callback(id: nat)

  datatype Effect =
    | Invoke(callback: Callback)
    | LaunchRequest(permission: string)

  class PermissionRequester {
    const permission: string
    var permissionState: bool
    var pendingOnGranted: Option<Callback>
    var pendingOnDenied: Option<Callback>

    /** `checkSelfPermission` answered `alreadyGranted` when the screen was first composed. */
    constructor (permission: string, alreadyGranted: bool)
      ensures this.permission == permission
      ensures permissionState == alreadyGranted
      ensures pendingOnGranted == None && pendingOnDenied == None
    {
      this.permission := permission;
      permissionState := alreadyGranted;
      pendingOnGranted := None;
      pendingOnDenied := None;
    }

    /** The returned request function: record both callbacks, then either call
        `onGranted` at once or launch the dialog. */
    method Request(onDenied: Callback, onGranted: Callback) returns (effects: seq<Effect>)
      modifies this
      ensures pendingOnGranted == Some(onGranted) && pendingOnDenied == Some(onDenied)
      ensures permissionState == old(permissionState)
      ensures permissionState ==> effects == [Invoke(onGranted)]
      ensures !permissionState ==> effects == [LaunchRequest(permission)]
    {
      pendingOnGranted := Some(onGranted);
      pendingOnDenied := Some(onDenied);
      if permissionState {
        effects := [Invoke(onGranted)];
      } else {
        effects := [LaunchRequest(permission)];
      }
    }

    /** The dialog's result: remember it, then run and clear the pending callback for that
        answer; the other pending callback stays. */
    method OnResult(granted: bool) returns (effects: seq<Effect>)
      modifies this
      ensures permissionState == granted
      ensures granted ==> pendingOnGranted == None && pendingOnDenied == old(pendingOnDenied)
      ensures !granted ==> pendingOnDenied == None && pendingOnGranted == old(pendingOnGranted)
      ensures granted ==> effects == PendingCall(old(pendingOnGranted))
      ensures !granted ==> effects == PendingCall(old(pendingOnDenied))
    {
      permissionState := granted;
      if granted {
        effects := PendingCall(pendingOnGranted);
        pendingOnGranted := None;
      } else {
        effects := PendingCall(pendingOnDenied);
        pendingOnDenied := None;
      }
    }
  }

  /** `pending?.invoke()`: the call, if a callback is pending. */
  function PendingCall(pending: Option<Callback>): (r: seq<Effect>)
    ensures pending.None? <==> r == []
    ensures pending.Some? ==> r == [Invoke(pending.value)]
  {
    match pending
    case None => []
    case Some(callback) => [Invoke(callback)]
  }

  /** A request while the permission is not held, answered "granted": the dialog is launched,
      then exactly `onGranted` runs; `onDenied` stays pending. */
  method RequestThenGrant(requester: PermissionRequester, onDenied: Callback, onGranted: Callback)
    returns (effects: seq<Effect>)
    requires !requester.permissionState
    modifies requester
    ensures effects == [LaunchRequest(requester.permission), Invoke(onGranted)]
    ensures requester.permissionState
    ensures requester.pendingOnGranted == None && requester.pendingOnDenied == Some(onDenied)
  {
    var launched := requester.Request(onDenied, onGranted);
    var answered := requester.OnResult(true);
    effects := launched + answered;
  }

  /** A request while the permission is held runs `onGranted` at once but leaves it pending.
      That request launches no dialog, so a later "granted" result can only come from a dialog
      launched by an earlier request and still open; when it arrives, it runs `onGranted` a
      second time. */
  method GrantedRequestStaysPending(requester: PermissionRequester, onDenied: Callback, onGranted: Callback)
    returns (effects: seq<Effect>)
    requires requester.permissionState
    modifies requester
    ensures effects == [Invoke(onGranted), Invoke(onGranted)]
  {
    var immediate := requester.Request(onDenied, onGranted);
    var later := requester.OnResult(true);
    effects := immediate + later;
  }
}
