/**
 * The client notification service: the newest-first list of notifications bounded by
 * `maxNotifications`, removal by id, clearing, read flags and the unread count, the per-type
 * colour and icon lookups, and the padding step of `urlBase64ToUint8Array`.
 *
 * The same class appears twice in the source: with a bound of 5, and with a bound taken from the
 * constructor's options (50 by default). Ids are parameters, because the source uses `Date.now()`.
 * The toasts on screen and the timers that remove them are not part of this model.
 */
module Notifications {
  import opened Wrappers
  import opened Sequences

  datatype Notification = Notification(id: int, message: string, kind: string, duration: nat, persistent: bool, read: bool)

  /** The options `show` reads; `None`, a duration of 0 and `persistent: false` all leave the default. */
  datatype ShowOptions = ShowOptions(duration: Option<nat>, persistent: Option<bool>)

  const DefaultDuration: nat := 5000
  const ErrorDuration: nat := 8000

  /**
   * `options.duration || defaultDuration`: a duration the caller gives wins unless it is 0, so a
   * notification is never shown for 0 milliseconds when the default is positive.
   */
  function DurationOf(options: ShowOptions, default: nat): (d: nat)
    ensures d == default || Some(d) == options.duration
    ensures default > 0 ==> d > 0
    ensures options.duration.Some? && options.duration.value != 0 ==> d == options.duration.value
  {
    if options.duration.Some? && options.duration.value != 0 then options.duration.value else default
  }

  /** The list after `unshift(n)` and, when it is then too long, one `pop()`. */
  function Pushed(ns: seq<Notification>, n: Notification, max: nat): (r: seq<Notification>)
    requires max >= 1
    ensures r != [] && r[0] == n
    ensures |ns| + 1 > max ==> r == [n] + ns[..|ns| - 1]
    ensures |ns| + 1 <= max ==> r == [n] + ns
    ensures |ns| <= max && max >= 1 ==> |r| <= max
  {
    var s := [n] + ns;
    if |s| > max then s[..|s| - 1] else s
  }

  /** `notifications.filter(n => n.id !== id)`. */
  function WithoutId(ns: seq<Notification>, id: int): (r: seq<Notification>)
    ensures |r| <= |ns|
    ensures forall x :: x in r <==> x in ns && x.id != id
  {
    if ns == [] then []
    else
      var rest := WithoutId(ns[1..], id);
      assert forall x :: x in ns <==> x == ns[0] || x in ns[1..];
      if ns[0].id != id then [ns[0]] + rest else rest
  }

  /** Removing an id that no entry has leaves the list as it is. */
  lemma {:induction false} WithoutAbsentId(ns: seq<Notification>, id: int)
    requires forall i :: 0 <= i < |ns| ==> ns[i].id != id
    ensures WithoutId(ns, id) == ns
  {
    if ns != [] {
      WithoutAbsentId(ns[1..], id);
    }
  }

  /** Removal keeps the relative order of what stays: it distributes over concatenation. */
  lemma {:induction false} WithoutIdAppend(a: seq<Notification>, b: seq<Notification>, id: int)
    ensures WithoutId(a + b, id) == WithoutId(a, id) + WithoutId(b, id)
  {
    if a != [] {
      assert (a + b)[1..] == a[1..] + b;
      WithoutIdAppend(a[1..], b, id);
    } else {
      assert a + b == b;
    }
  }

  predicate Unread(n: Notification) { !n.read }

  /** `filter(n => !n.read).length`: the entries whose `read` is not set. */
  function UnreadCount(ns: seq<Notification>): (c: nat)
    ensures c <= |ns|
    ensures c == 0 <==> forall i :: 0 <= i < |ns| ==> ns[i].read
  {
    CountWhere(ns, Unread)
  }

  /** Index of the first entry with the id, as `find` picks it. */
  function FindId(ns: seq<Notification>, id: int): (r: Option<nat>)
    ensures r.Some? ==> r.value < |ns| && ns[r.value].id == id && forall j :: 0 <= j < r.value ==> ns[j].id != id
    ensures r.None? ==> forall j :: 0 <= j < |ns| ==> ns[j].id != id
  {
    FirstIndex(ns, (n: Notification) => n.id == id)
  }

  /** Marking an unread entry read lowers the unread count by exactly one. */
  lemma MarkOneRead(ns: seq<Notification>, k: nat)
    requires k < |ns| && !ns[k].read
    ensures UnreadCount(ns[k := ns[k].(read := true)]) == UnreadCount(ns) - 1
  {
    CountWhereUpdate(ns, k, ns[k].(read := true), Unread);
  }

  /** The colour table of `getTypeColor`. */
  const Colors: map<string, string> := map[
    "success" := "#10b981", "error" := "#ef4444", "warning" := "#f59e0b",
    "info" := "#3b82f6", "loading" := "#6b7280"]

  /** The icon table of `getTypeIcon`. */
  const Icons: map<string, string> := map[
    "success" := "fa-check-circle", "error" := "fa-exclamation-triangle", "warning" := "fa-exclamation-circle",
    "info" := "fa-info-circle", "loading" := "fa-spinner fa-spin"]

  /** `getTypeColor`: `colors[type] || colors.info`. */
  function TypeColor(kind: string): (c: string)
    ensures kind in Colors ==> c == Colors[kind]
    ensures kind !in Colors ==> c == Colors["info"]
  {
    if kind in Colors && Colors[kind] != "" then Colors[kind] else Colors["info"]
  }

  /** `getTypeIcon`: `icons[type] || icons.info`. */
  function TypeIcon(kind: string): (c: string)
    ensures kind in Icons ==> c == Icons[kind]
    ensures kind !in Icons ==> c == Icons["info"]
  {
    if kind in Icons && Icons[kind] != "" then Icons[kind] else Icons["info"]
  }

  /** An unknown type looks exactly like `info`, and the five known types look pairwise different. */
  lemma TypeLookups(a: string, b: string)
    ensures a !in Colors ==> TypeColor(a) == TypeColor("info") && TypeIcon(a) == TypeIcon("info")
    ensures a in Colors && b in Colors && a != b ==> TypeColor(a) != TypeColor(b) && TypeIcon(a) != TypeIcon(b)
  {
    assert Colors.Keys == Icons.Keys;
  }

  // ---------------------------------------------------------------- base64url padding

  /** `'='.repeat(k)`. */
  function Equals(k: nat): (r: string)
    ensures |r| == k && forall i :: 0 <= i < k ==> r[i] == '='
  {
    if k == 0 then "" else "=" + Equals(k - 1)
  }

  /** `replace(/-/g, '+').replace(/_/g, '/')` on one character. */
  function FromUrlSafe(c: char): char
  {
    if c == '-' then '+' else if c == '_' then '/' else c
  }

  /**
   * The string `urlBase64ToUint8Array` hands to `atob`: padded with `(4 - n % 4) % 4` equals
   * signs, `-` turned into `+` and `_` into `/`.
   */
  function UrlBase64ToBase64(s: string): (r: string)
    ensures |r| % 4 == 0 && |s| <= |r| < |s| + 4
    ensures forall i :: 0 <= i < |s| ==> r[i] == FromUrlSafe(s[i])
    ensures forall i :: |s| <= i < |r| ==> r[i] == '='
    ensures '-' !in r && '_' !in r
  {
    var padded := s + Equals((4 - |s| % 4) % 4);
    seq(|padded|, i requires 0 <= i < |padded| => FromUrlSafe(padded[i]))
  }

  /** The URL-safe spelling of a base64 character: `+` as `-` and `/` as `_`. */
  function ToUrlSafe(c: char): char
  {
    if c == '+' then '-' else if c == '/' then '_' else c
  }

  /**
   * The conversion loses nothing: on a URL-safe key (no `+`, `/` or `=`) dropping the padding and
   * turning the characters back into their URL-safe spelling gives the key again.
   */
  lemma UrlBase64RoundTrip(s: string)
    requires '+' !in s && '/' !in s && '=' !in s
    ensures var r := UrlBase64ToBase64(s);
      |s| <= |r| && seq(|s|, i requires 0 <= i < |s| => ToUrlSafe(r[i])) == s
  {
    var r := UrlBase64ToBase64(s);
    forall i | 0 <= i < |s| ensures ToUrlSafe(r[i]) == s[i] {
      assert r[i] == FromUrlSafe(s[i]);
      assert s[i] != '+' && s[i] != '/';
    }
  }

  // ---------------------------------------------------------------- the service

  class NotificationService {
    var notifications: seq<Notification>
    var maxNotifications: nat

    /** The list never holds more than `maxNotifications`, which is at least 1. */
    ghost predicate Valid()
      reads this
    {
      1 <= maxNotifications && |notifications| <= maxNotifications
    }

    /** `new NotificationService()` of the standalone service: at most 5 notifications. */
    constructor ()
      ensures Valid() && notifications == [] && maxNotifications == 5
    {
      notifications := [];
      maxNotifications := 5;
    }

    /** `new NotificationService(options)` of the bundled copy: `options.maxNotifications || 50`. */
    constructor WithOptions(maxOption: Option<nat>)
      ensures Valid() && notifications == []
      ensures maxNotifications == if maxOption.Some? && maxOption.value != 0 then maxOption.value else 50
    {
      notifications := [];
      maxNotifications := if maxOption.Some? && maxOption.value != 0 then maxOption.value else 50;
    }

    /** `show`: the new notification goes first; when the list is then too long its last (oldest) entry is dropped. */
    method Show(message: string, kind: string, options: ShowOptions, id: int) returns (shown: int)
      requires Valid()
      modifies this`notifications
      ensures Valid() && shown == id
      ensures notifications == Pushed(old(notifications),
        Notification(id, message, kind, DurationOf(options, DefaultDuration), options.persistent == Some(true), false),
        maxNotifications)
    {
      var n := Notification(id, message, kind, DurationOf(options, DefaultDuration), options.persistent == Some(true), false);
      notifications := [n] + notifications;
      if |notifications| > maxNotifications {
        notifications := notifications[..|notifications| - 1];
      }
      shown := id;
    }

    /** `error`: a `show` whose duration is always 8000. */
    method Error(message: string, options: ShowOptions, id: int) returns (shown: int)
      requires Valid()
      modifies this`notifications
      ensures Valid() && shown == id
      ensures notifications == Pushed(old(notifications),
        Notification(id, message, "error", ErrorDuration, options.persistent == Some(true), false),
        maxNotifications)
    {
      shown := Show(message, "error", options.(duration := Some(ErrorDuration)), id);
    }

    /** `loading`: a `show` that is always persistent. */
    method Loading(message: string, options: ShowOptions, id: int) returns (shown: int)
      requires Valid()
      modifies this`notifications
      ensures Valid() && shown == id
      ensures notifications == Pushed(old(notifications),
        Notification(id, message, "loading", DurationOf(options, DefaultDuration), true, false),
        maxNotifications)
    {
      shown := Show(message, "loading", options.(persistent := Some(true)), id);
    }

    /** `remove`: nothing happens for an unknown id; otherwise every entry with that id goes. */
    method Remove(id: int)
      requires Valid()
      modifies this`notifications
      ensures Valid()
      ensures notifications == WithoutId(old(notifications), id)
      ensures FindId(old(notifications), id).None? ==> notifications == old(notifications)
    {
      if FindId(notifications, id).None? {
        WithoutAbsentId(notifications, id);
        return;
      }
      notifications := WithoutId(notifications, id);
    }

    /** `clear`. */
    method Clear()
      requires Valid()
      modifies this`notifications
      ensures Valid() && notifications == []
    {
      notifications := [];
    }

    /** `getUnreadCount`. */
    method GetUnreadCount() returns (count: nat)
      ensures count == UnreadCount(notifications)
    {
      count := 0;
      var i := |notifications|;
      while i > 0
        invariant 0 <= i <= |notifications|
        invariant count == UnreadCount(notifications[i..])
      {
        i := i - 1;
        assert notifications[i..][1..] == notifications[i + 1..];
        if !notifications[i].read {
          count := count + 1;
        }
      }
    }

    /** `markAsRead`: only the first entry with the id is marked. */
    method MarkAsRead(id: int)
      requires Valid()
      modifies this`notifications
      ensures Valid()
      ensures FindId(old(notifications), id).None? ==> notifications == old(notifications)
      ensures FindId(old(notifications), id).Some? ==>
        var k := FindId(old(notifications), id).value;
        notifications == old(notifications)[k := old(notifications)[k].(read := true)]
    {
      var k := FindId(notifications, id);
      if k.Some? {
        notifications := notifications[k.value := notifications[k.value].(read := true)];
      }
    }

    /** `markAllAsRead`: every entry is marked read, and nothing else changes. */
    method MarkAllAsRead()
      requires Valid()
      modifies this`notifications
      ensures Valid() && UnreadCount(notifications) == 0
      ensures |notifications| == |old(notifications)|
      ensures forall i :: 0 <= i < |notifications| ==> notifications[i] == old(notifications)[i].(read := true)
    {
      var i := 0;
      while i < |notifications|
        invariant i <= |notifications| == |old(notifications)|
        invariant forall j :: 0 <= j < i ==> notifications[j] == old(notifications)[j].(read := true)
        invariant forall j :: i <= j < |notifications| ==> notifications[j] == old(notifications)[j]
      {
        notifications := notifications[i := notifications[i].(read := true)];
        i := i + 1;
      }
    }
  }
}
