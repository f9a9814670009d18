/**
 * graphhelper/graphhelper.go: the GraphHelper's own rules around the Graph
 * SDK calls - configuration lookups, how users and room bookings are written
 * out, how a room subscription is built, event deletion's error path and the
 * room cache. Each SDK call is a parameter: its answer is given, not computed.
 */
module Graph {
  import opened Wrappers
  import opened Strings
  import Io

  /** A point in time or a duration, in nanoseconds (Go's time.Duration unit). */
  type Time = int

  const Minute: int := 60 * 1_000_000_000
  const Hour: int := 60 * Minute

  /** How long a cached room stays usable. */
  const RoomCacheLifetime: int := 5 * Minute
  /** How long a new subscription lives. */
  const SubscriptionLifetime: int := 24 * Hour
  /** The span of the bookings listing. */
  const BookingSpan: int := 7 * 24 * Hour

  /** os.Getenv: the variable's value, or "" when it is not set. */
  function Getenv(env: map<string, string>, key: string): string {
    if key in env then env[key] else []
  }

  // ---------------------------------------------------------------- configuration

  const PortFatal := "PORT is not set in .env file, returning default port 8080"
  const EndpointFatal := "ENDPOINT is not set in .env file"

  /**
   * GetPort: the listen address ":" + PORT. An unset or empty PORT ends the
   * process through log.Fatal, so the default the message mentions is never used.
   */
  function GetPort(env: map<string, string>): (r: Io.Exit<string>)
    ensures !r.Panicked?
  {
    var port := Getenv(env, "PORT");
    if port == [] then Io.Fatal(PortFatal) else Io.Returned(":" + port)
  }

  /** The listen address is ":" followed by exactly the PORT value, and exists exactly when PORT is non-empty. */
  lemma GetPortAddress(env: map<string, string>)
    ensures GetPort(env).Returned? <==> Getenv(env, "PORT") != []
    ensures GetPort(env).Returned? ==>
              var a := GetPort(env).value; |a| >= 2 && a[0] == ':' && a[1..] == env["PORT"]
    ensures GetPort(env).Fatal? ==> GetPort(env).message == PortFatal
  {
  }

  /** The default port is never substituted: ":8080" comes out only when PORT is "8080". */
  lemma GetPortNoDefault(env: map<string, string>)
    ensures GetPort(env) == Io.Returned(":8080") ==> Getenv(env, "PORT") == "8080"
    ensures Getenv(env, "PORT") == [] ==> GetPort(env).Fatal?
  {
    if GetPort(env) == Io.Returned(":8080") {
      assert (":" + Getenv(env, "PORT"))[1..] == Getenv(env, "PORT");
    }
  }

  /** GetNotificationUrl: ENDPOINT, or log.Fatal when it is unset or empty. */
  function GetNotificationUrl(env: map<string, string>): (r: Io.Exit<string>)
    ensures r.Returned? <==> Getenv(env, "ENDPOINT") != []
    ensures r.Returned? ==> r.value == env["ENDPOINT"]
    ensures r.Fatal? ==> r.message == EndpointFatal
  {
    var url := Getenv(env, "ENDPOINT");
    if url == [] then Io.Fatal(EndpointFatal) else Io.Returned(url)
  }

  // ---------------------------------------------------------------- ListUsers

  /** A pointer printed with %v: "<nil>", or the address fmt prints for it. */
  datatype Pointer = Nil | Address(text: string)

  function PointerText(p: Pointer): string {
    match p
    case Nil => "<nil>"
    case Address(a) => a
  }

  /**
   * A directory entry as the SDK returns it. Enabled and IsResourceAccount
   * are *bool values that ListUsers prints with %v, i.e. as pointers.
   */
  datatype User = User(id: Option<string>, displayName: Option<string>, mail: Option<string>,
                       accountEnabled: Pointer, isResourceAccount: Pointer)

  /** One page of users and the link to the next page, if any. */
  datatype UserPage = UserPage(value: seq<User>, nextLink: Option<string>)

  /** ListUsers dereferences the id and the display name. */
  predicate UserPrintable(u: User) {
    u.id.Some? && u.displayName.Some?
  }

  function MailText(mail: Option<string>): string {
    match mail
    case None => "NO EMAIL"
    case Some(m) => m
  }

  /** The block ListUsers writes for one user. */
  function UserBlock(u: User): seq<string>
    requires UserPrintable(u)
  {
    [ "[yellow]User Id: [green]" + u.id.value + "[white]\n",
      "  Name: " + u.displayName.value + "\n",
      "  Email: " + MailText(u.mail) + "\n",
      "  Enabled: " + PointerText(u.accountEnabled) + "\n",
      "  IsResourceAccount: " + PointerText(u.isResourceAccount) + "\n",
      "\n" ]
  }

  function UserBlocks(users: seq<User>): seq<string>
    requires forall k :: 0 <= k < |users| ==> UserPrintable(users[k])
  {
    if users == [] then []
    else UserBlocks(users[..|users| - 1]) + UserBlock(users[|users| - 1])
  }

  /** Everything ListUsers writes for a page. */
  function UsersWrites(page: UserPage): seq<string>
    requires forall k :: 0 <= k < |page.value| ==> UserPrintable(page.value[k])
  {
    UserBlocks(page.value) + MoreUsersLines(page.nextLink.Some?)
  }

  /** The closing lines of ListUsers: whether the page has a next link. */
  function MoreUsersLines(more: bool): seq<string> {
    ["\n", "More users available? " + BoolToString(more) + "\n", "\n"]
  }

  /**
   * ListUsers: one block per user, in the order of the page, then whether
   * more users are available. A failed call panics before anything is written.
   */
  method ListUsers(w: Io.Buffer, users: Result<UserPage, string>) returns (exit: Io.Exit<()>)
    requires users.Success? ==> forall k :: 0 <= k < |users.value.value| ==> UserPrintable(users.value.value[k])
    modifies w
    ensures users.Failure? ==> exit == Io.Panicked("Error getting users: " + users.error) && w.chunks == old(w.chunks)
    ensures users.Success? ==> exit == Io.Returned(()) && w.chunks == old(w.chunks) + UsersWrites(users.value)
    ensures w.row == old(w.row)
  {
    if users.Failure? {
      return Io.Panicked("Error getting users: " + users.error);
    }
    var page := users.value;
    WriteUsers(w, page.value);
    var closing := MoreUsersLines(page.nextLink.Some?);
    w.Write(closing[0]);
    w.Write(closing[1]);
    w.Write(closing[2]);
    assert closing == [closing[0], closing[1], closing[2]];
    exit := Io.Returned(());
  }

  /** The loop of ListUsers: one block per user, in order. */
  method WriteUsers(w: Io.Buffer, users: seq<User>)
    requires forall k :: 0 <= k < |users| ==> UserPrintable(users[k])
    modifies w
    ensures w.chunks == old(w.chunks) + UserBlocks(users) && w.row == old(w.row)
  {
    for i := 0 to |users|
      invariant w.chunks == old(w.chunks) + UserBlocks(users[..i])
      invariant w.row == old(w.row)
    {
      assert users[..i + 1][..i] == users[..i];
      WriteUser(w, users[i]);
    }
    assert users[..|users|] == users;
  }

  /** The body of ListUsers' loop. */
  method WriteUser(w: Io.Buffer, u: User)
    requires UserPrintable(u)
    modifies w
    ensures w.chunks == old(w.chunks) + UserBlock(u) && w.row == old(w.row)
  {
    w.Write("[yellow]User Id: [green]" + u.id.value + "[white]\n");
    w.Write("  Name: " + u.displayName.value + "\n");
    var email := MailText(u.mail);
    w.Write("  Email: " + email + "\n");
    w.Write("  Enabled: " + PointerText(u.accountEnabled) + "\n");
    w.Write("  IsResourceAccount: " + PointerText(u.isResourceAccount) + "\n");
    w.Write("\n");
  }

  /** The k-th user's block is the k-th run of six writes. */
  lemma {:induction false} UserBlockAt(users: seq<User>, k: nat)
    requires forall j :: 0 <= j < |users| ==> UserPrintable(users[j])
    requires k < |users|
    ensures |UserBlocks(users)| == 6 * |users|
    ensures UserBlocks(users)[6 * k..6 * k + 6] == UserBlock(users[k])
  {
    var init := users[..|users| - 1];
    if k < |users| - 1 {
      UserBlockAt(init, k);
    } else if init != [] {
      UserBlockAt(init, 0);
    }
  }

  /** A user without mail is shown as NO EMAIL, one with mail by that address. */
  lemma EmailLine(u: User)
    requires UserPrintable(u)
    ensures u.mail.None? ==> UserBlock(u)[2] == "  Email: NO EMAIL\n"
    ensures u.mail.Some? ==> UserBlock(u)[2] == "  Email: " + u.mail.value + "\n"
  {
  }

  /** "More users available?" says true exactly when the page has a next link. */
  lemma MoreUsersFlag(page: UserPage)
    requires forall k :: 0 <= k < |page.value| ==> UserPrintable(page.value[k])
    ensures var w := UsersWrites(page);
      |w| >= 3 && (w[|w| - 2] == "More users available? true\n" <==> page.nextLink.Some?)
  {
    var w := UsersWrites(page);
    if page.nextLink.None? {
      assert w[|w| - 2] == "More users available? false\n";
      assert "More users available? false\n"[22] == 'f';
    }
  }

  // ---------------------------------------------------------------- ListRoom7DaysBookings

  /** The calendar-view query: whose calendar, and the window it covers. */
  datatype CalendarQuery = CalendarQuery(user: string, startDateTime: Time, endDateTime: Time)

  /** A calendar event as the SDK returns it; every field is a pointer. */
  datatype CalendarEvent = CalendarEvent(
    id: Option<string>, subject: Option<string>,
    start: Option<string>, end: Option<string>,
    isOnlineMeeting: Option<bool>, isOrganizer: Option<bool>, isCancelled: Option<bool>,
    organizer: Option<string>)

  /** The query ListRoom7DaysBookings sends: from now to seven days on. */
  function BookingWindow(roomId: string, now: Time): (q: CalendarQuery)
    ensures q.user == roomId && q.startDateTime == now
    ensures q.endDateTime - q.startDateTime == 7 * 24 * 60 * 60 * 1_000_000_000
  {
    CalendarQuery(roomId, now, now + BookingSpan)
  }

  /** The colour of the isOrganiser value: green only for a present true. */
  function OrganiserColour(isOrganizer: Option<bool>): string {
    if isOrganizer.None? || !isOrganizer.value then "red" else "green"
  }

  lemma OrganiserGreenOnlyWhenTrue(isOrganizer: Option<bool>)
    ensures OrganiserColour(isOrganizer) == "green" <==> isOrganizer == Some(true)
    ensures OrganiserColour(isOrganizer) == "red" <==> isOrganizer != Some(true)
  {
  }

  /** The message of Go's run-time panic on a nil pointer dereference. */
  const NilDereference := "runtime error: invalid memory address or nil pointer dereference"

  /**
   * The isOrganiser line as the source writes it: both branches dereference
   * the flag, so the nil case the test routes to the red branch panics.
   */
  function OrganiserLineAsWritten(isOrganizer: Option<bool>): (r: Io.Exit<string>)
    ensures r.Panicked? <==> isOrganizer.None?
    ensures !r.Fatal?
  {
    match isOrganizer
    case None => Io.Panicked(NilDereference)
    case Some(b) => Io.Returned("  isOrganiser: [" + OrganiserColour(isOrganizer) + "]" + BoolToString(b) + "[white]\n")
  }

  /** The isOrganiser line as intended: a missing flag is shown as a red false. */
  function OrganiserLine(isOrganizer: Option<bool>): (line: string)
    ensures line == "  isOrganiser: [green]true[white]\n" <==> isOrganizer == Some(true)
  {
    var shown := isOrganizer == Some(true);
    "  isOrganiser: [" + OrganiserColour(isOrganizer) + "]" + BoolToString(shown) + "[white]\n"
  }

  /**
   * The corrected line agrees with the source wherever the source does not
   * panic, and the one input that panics there is shown as a red false.
   */
  lemma OrganiserLineRepairsNil(isOrganizer: Option<bool>)
    ensures isOrganizer.Some? ==> OrganiserLineAsWritten(isOrganizer) == Io.Returned(OrganiserLine(isOrganizer))
    ensures OrganiserLineAsWritten(None).Panicked? && OrganiserLine(None) == "  isOrganiser: [red]false[white]\n"
  {
  }

  /**
   * The fields the block dereferences: the id, subject and both date-times
   * always, the rest only once both conversions to local time succeeded.
   */
  predicate EventPrintable(e: CalendarEvent, toLocal: string -> Result<string, string>) {
    && e.id.Some? && e.subject.Some? && e.start.Some? && e.end.Some?
    && (toLocal(e.start.value).Success? && toLocal(e.end.value).Success? ==>
          e.isOnlineMeeting.Some? && e.isCancelled.Some? && e.organizer.Some?)
  }

  /** The tail of a block once both local times are known. */
  function EventDetails(e: CalendarEvent, localEnd: string): seq<string>
    requires e.isOnlineMeeting.Some? && e.isCancelled.Some? && e.organizer.Some?
  {
    [ "  Local End: " + localEnd + "\n",
      "  OnlineMeeting: " + BoolToString(e.isOnlineMeeting.value) + "\n",
      OrganiserLine(e.isOrganizer),
      "  isCancelled: " + BoolToString(e.isCancelled.value) + "\n",
      "  Organiser: [yellow]" + e.organizer.value + "[white]\n",
      " \n" ]
  }

  /**
   * The block written for one event. A failed conversion of the start or the
   * end to local time writes its error line and ends the block there.
   */
  function EventBlock(e: CalendarEvent, toLocal: string -> Result<string, string>): seq<string>
    requires EventPrintable(e, toLocal)
  {
    [ "[yellow]Event Id : [green]" + e.id.value + "[white]\n",
      "  Subject: [blue]" + e.subject.value + "[white]\n",
      "  Start: " + e.start.value + ", End: " + e.end.value + "\n" ]
    + match toLocal(e.start.value)
      case Failure(err) => ["Failed to convert start time to local: " + err + "\n"]
      case Success(localStart) =>
        ["  Local Start: " + localStart + "\n"]
        + match toLocal(e.end.value)
          case Failure(err) => ["Failed to convert end time to local: " + err + "\n"]
          case Success(localEnd) => EventDetails(e, localEnd)
  }

  function EventBlocks(events: seq<CalendarEvent>, toLocal: string -> Result<string, string>): seq<string>
    requires forall k :: 0 <= k < |events| ==> EventPrintable(events[k], toLocal)
  {
    if events == [] then []
    else EventBlocks(events[..|events| - 1], toLocal) + EventBlock(events[|events| - 1], toLocal)
  }

  function BookingWrites(view: Result<seq<CalendarEvent>, string>, toLocal: string -> Result<string, string>): seq<string>
    requires view.Success? ==> forall k :: 0 <= k < |view.value| ==> EventPrintable(view.value[k], toLocal)
  {
    match view
    case Failure(err) => ["Failed to get calendar view: " + err + "\n"]
    case Success(events) => EventBlocks(events, toLocal)
  }

  /**
   * ListRoom7DaysBookings: asks for the room's calendar over the next seven
   * days and writes one block per event, in order, or the call's error.
   */
  method ListRoom7DaysBookings(w: Io.Buffer, roomId: string, now: Time,
                               calendarView: CalendarQuery -> Result<seq<CalendarEvent>, string>,
                               toLocal: string -> Result<string, string>)
    requires var view := calendarView(BookingWindow(roomId, now));
      view.Success? ==> forall k :: 0 <= k < |view.value| ==> EventPrintable(view.value[k], toLocal)
    modifies w
    ensures w.chunks == old(w.chunks) + BookingWrites(calendarView(BookingWindow(roomId, now)), toLocal)
    ensures w.row == old(w.row)
  {
    var view := calendarView(BookingWindow(roomId, now));
    if view.Failure? {
      w.Write("Failed to get calendar view: " + view.error + "\n");
      return;
    }
    WriteEvents(w, view.value, toLocal);
  }

  /** The loop of ListRoom7DaysBookings: one block per event, in order. */
  method WriteEvents(w: Io.Buffer, events: seq<CalendarEvent>, toLocal: string -> Result<string, string>)
    requires forall k :: 0 <= k < |events| ==> EventPrintable(events[k], toLocal)
    modifies w
    ensures w.chunks == old(w.chunks) + EventBlocks(events, toLocal) && w.row == old(w.row)
  {
    for i := 0 to |events|
      invariant w.chunks == old(w.chunks) + EventBlocks(events[..i], toLocal)
      invariant w.row == old(w.row)
    {
      assert events[..i + 1][..i] == events[..i];
      WriteEvent(w, events[i], toLocal);
    }
    assert events[..|events|] == events;
  }

  /** The body of ListRoom7DaysBookings' loop: one event's block. */
  method WriteEvent(w: Io.Buffer, e: CalendarEvent, toLocal: string -> Result<string, string>)
    requires EventPrintable(e, toLocal)
    modifies w
    ensures w.chunks == old(w.chunks) + EventBlock(e, toLocal)
    ensures w.row == old(w.row)
  {
    var head := [ "[yellow]Event Id : [green]" + e.id.value + "[white]\n",
                  "  Subject: [blue]" + e.subject.value + "[white]\n",
                  "  Start: " + e.start.value + ", End: " + e.end.value + "\n" ];
    w.Write(head[0]);
    w.Write(head[1]);
    w.Write(head[2]);
    assert w.chunks == old(w.chunks) + head;
    var localStart := toLocal(e.start.value);
    if localStart.Failure? {
      w.Write("Failed to convert start time to local: " + localStart.error + "\n");
      return;
    }
    w.Write("  Local Start: " + localStart.value + "\n");
    var localEnd := toLocal(e.end.value);
    if localEnd.Failure? {
      w.Write("Failed to convert end time to local: " + localEnd.error + "\n");
      return;
    }
    WriteDetails(w, e, localEnd.value);
  }

  /** The tail of an event's block once both local times are known. */
  method WriteDetails(w: Io.Buffer, e: CalendarEvent, localEnd: string)
    requires e.isOnlineMeeting.Some? && e.isCancelled.Some? && e.organizer.Some?
    modifies w
    ensures w.chunks == old(w.chunks) + EventDetails(e, localEnd) && w.row == old(w.row)
  {
    w.Write("  Local End: " + localEnd + "\n");
    w.Write("  OnlineMeeting: " + BoolToString(e.isOnlineMeeting.value) + "\n");
    w.Write(OrganiserLine(e.isOrganizer));
    w.Write("  isCancelled: " + BoolToString(e.isCancelled.value) + "\n");
    w.Write("  Organiser: [yellow]" + e.organizer.value + "[white]\n");
    w.Write(" \n");
  }

  /**
   * A failed conversion cuts the event's block short: after the start, the
   * block ends with the error line; a full block has ten writes.
   */
  lemma ConversionFailureEndsBlock(e: CalendarEvent, toLocal: string -> Result<string, string>)
    requires EventPrintable(e, toLocal)
    ensures var b := EventBlock(e, toLocal);
      && (toLocal(e.start.value).Failure? ==>
            |b| == 4 && b[3] == "Failed to convert start time to local: " + toLocal(e.start.value).error + "\n")
      && (toLocal(e.start.value).Success? && toLocal(e.end.value).Failure? ==>
            |b| == 5 && b[4] == "Failed to convert end time to local: " + toLocal(e.end.value).error + "\n")
      && (toLocal(e.start.value).Success? && toLocal(e.end.value).Success? ==> |b| == 10)
  {
  }

  /** Each event's block follows the blocks of the events before it. */
  lemma {:induction false} EventBlocksInOrder(events: seq<CalendarEvent>, toLocal: string -> Result<string, string>, k: nat)
    requires forall j :: 0 <= j < |events| ==> EventPrintable(events[j], toLocal)
    requires k <= |events|
    ensures EventBlocks(events[..k], toLocal) <= EventBlocks(events, toLocal)
  {
    if k < |events| {
      var init := events[..|events| - 1];
      assert init[..k] == events[..k];
      EventBlocksInOrder(init, toLocal, k);
    } else {
      assert events[..k] == events;
    }
  }

  // ---------------------------------------------------------------- CreateRoomSubscription

  /** The subscription object sent to the service. */
  datatype SubscriptionRequest = SubscriptionRequest(
    changeType: string, notificationUrl: string, resource: string, expirationDateTime: Time)

  const RoomChangeTypes := "created,updated,deleted"

  /** The resource path of a user's (or room's) events. */
  function EventsResource(roomId: string): string {
    "/users/" + roomId + "/events"
  }

  /** The user an events resource path names, if it is one. */
  function ResourceUser(resource: string): Option<string> {
    Unwrap(resource, "/users/", "/events")
  }

  /** The resource path names the room it was built for, and no other. */
  lemma EventsResourceRoundTrip(roomId: string)
    ensures ResourceUser(EventsResource(roomId)) == Some(roomId)
  {
    UnwrapWrap("/users/", roomId, "/events");
  }

  lemma EventsResourceInjective(a: string, b: string)
    ensures EventsResource(a) == EventsResource(b) ==> a == b
  {
    if EventsResource(a) == EventsResource(b) {
      WrapInjective("/users/", a, b, "/events");
    }
  }

  /** The subscription CreateRoomSubscription builds for a room. */
  function RoomSubscription(roomId: string, notificationUrl: string, now: Time): (s: SubscriptionRequest)
    ensures s.changeType == "created,updated,deleted"
    ensures s.notificationUrl == notificationUrl
    ensures ResourceUser(s.resource) == Some(roomId)
    ensures s.expirationDateTime - now == 24 * 60 * 60 * 1_000_000_000
  {
    EventsResourceRoundTrip(roomId);
    SubscriptionRequest(RoomChangeTypes, notificationUrl, EventsResource(roomId), now + SubscriptionLifetime)
  }

  /**
   * CreateRoomSubscription: without ENDPOINT the process ends before anything
   * is sent; otherwise the room's subscription is posted, and a rejection is
   * written (with no newline) and returned as the error.
   */
  method CreateRoomSubscription(w: Io.Buffer, env: map<string, string>, roomId: string, now: Time,
                                post: SubscriptionRequest -> Result<string, string>)
    returns (exit: Io.Exit<Option<string>>)
    modifies w
    ensures Getenv(env, "ENDPOINT") == [] ==> exit == Io.Fatal(EndpointFatal) && w.chunks == old(w.chunks)
    ensures Getenv(env, "ENDPOINT") != [] ==>
      match post(RoomSubscription(roomId, env["ENDPOINT"], now))
      case Failure(err) =>
        && w.chunks == old(w.chunks) + ["failed to create subscription: " + err]
        && exit == Io.Returned(Some("failed to create subscription: " + err))
      case Success(_) => w.chunks == old(w.chunks) && exit == Io.Returned(None)
    ensures w.row == old(w.row)
  {
    var url := GetNotificationUrl(env);
    if url.Fatal? {
      return Io.Fatal(url.message);
    }
    var subscription := RoomSubscription(roomId, url.value, now);
    var result := post(subscription);
    if result.Failure? {
      w.Write("failed to create subscription: " + result.error);
      return Io.Returned(Some("failed to create subscription: " + result.error));
    }
    exit := Io.Returned(None);
  }

  // ---------------------------------------------------------------- DeleteEvent

  /** The line DeleteEvent writes when the service rejects the deletion. */
  function DeleteFailureLine(userId: string, eventId: string, message: string): string {
    "[red]failed to delete event:[" + eventId + "] error:[" + message + "][white] for [yellow]" + userId + "[white]\n"
  }

  /** The error DeleteEvent returns then: the service's message, wrapped. */
  function DeleteFailureError(message: string): string {
    "failed to delete event: " + message
  }

  /**
   * DeleteEvent: deletes one event of a user. A rejection is written in red
   * and returned wrapped; success writes nothing.
   */
  method DeleteEvent(w: Io.Buffer, userId: string, eventId: string,
                     delete: (string, string) -> Option<string>)
    returns (err: Option<string>)
    modifies w
    ensures delete(userId, eventId).None? ==> err == None && w.chunks == old(w.chunks)
    ensures delete(userId, eventId).Some? ==>
      var e := delete(userId, eventId).value;
      && err == Some(DeleteFailureError(e))
      && w.chunks == old(w.chunks) + [DeleteFailureLine(userId, eventId, e)]
    ensures w.row == old(w.row)
  {
    var failure := delete(userId, eventId);
    if failure.Some? {
      w.Write(DeleteFailureLine(userId, eventId, failure.value));
      return Some(DeleteFailureError(failure.value));
    }
    err := None;
  }

  /** Both the written line and the returned error carry the service's message unchanged. */
  lemma DeleteFailureCarriesMessage(userId: string, eventId: string, message: string)
    ensures Unwrap(DeleteFailureError(message), "failed to delete event: ", "") == Some(message)
    ensures message <= DeleteFailureLine(userId, eventId, message)[|"[red]failed to delete event:[" + eventId + "] error:["|..]
  {
    UnwrapWrap("failed to delete event: ", message, "");
    assert "failed to delete event: " + message + "" == DeleteFailureError(message);
    var line := DeleteFailureLine(userId, eventId, message);
    var pre := "[red]failed to delete event:[" + eventId + "] error:[";
    assert line == pre + message + ("][white] for [yellow]" + userId + "[white]\n");
  }

  // ---------------------------------------------------------------- the room cache

  datatype Room = Room(id: string, displayName: string, capacity: int, emailAddress: string)

  /** The GraphHelper's cache of rooms and when it was filled. */
  class GraphHelper {
    var rooms: map<string, Room>
    var lastUpdate: Time

    constructor (rooms: map<string, Room>, lastUpdate: Time)
      ensures this.rooms == rooms && this.lastUpdate == lastUpdate
    {
      this.rooms, this.lastUpdate := rooms, lastUpdate;
    }

    /**
     * GetRoom: the cached room when the email is cached and the cache is
     * younger than five minutes; otherwise (nil, nil), and the cache is
     * left as it was.
     */
    method GetRoom(email: string, now: Time) returns (room: Option<Room>, err: Option<string>)
      ensures room.Some? <==> email in rooms && now - lastUpdate < 5 * 60 * 1_000_000_000
      ensures room.Some? ==> room.value == rooms[email]
      ensures err.None?
    {
      if email in rooms && now - lastUpdate < RoomCacheLifetime {
        return Some(rooms[email]), None;
      }
      return None, None;
    }
  }
}
