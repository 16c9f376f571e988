/**
 * The subscription page: pick a user and a notification from search-as-you-type
 * dropdowns, pick a channel, and create a `sys_noti_subscription` record.
 * The chosen user and notification are whatever the picked record's `sys_id`
 * reduces to, which is a string normally but may be the object itself.
 */
module SubscriptionPage {
  import opened Wrappers
  import opened Fields
  import opened Records
  import opened Http
  import opened Messages
  import SubscriptionService

  datatype SubForm = SubForm(user: Field, notification: Field, channel: string)

  const EmptyForm := SubForm(Scalar(""), Scalar(""), "")
  const CreatedMessage := Message(Success, "Subscription created successfully!")
  const FailedMessage := Message(Error, "Failed to create subscription. Please try again.")

  /** `sys_id?.value || sys_id`: the raw value when the id is a pair with a non-empty value, the id itself otherwise. */
  function IdOf(id: Field): (r: Field)
    ensures id.Pair? && id.value != "" ==> r == Scalar(id.value)
    ensures !(id.Pair? && id.value != "") ==> r == id
    ensures ValueOf(r) == ValueOf(id)
    ensures Truthy(r) <==> Truthy(id)
  {
    if id.Pair? && id.value != "" then Scalar(id.value) else id
  }

  /** `f?.display_value`, read where a falsy result falls through: the display text of a pair, nothing for a string. */
  function DisplayIfPair(f: Field): (d: string)
    ensures f.Pair? ==> d == f.display
    ensures f.Scalar? ==> d == ""
  {
    if f.Pair? then f.display else ""
  }

  /** Text put in the user search box when a user is picked: name display, user-name display, then the raw name or user name. */
  function UserLabel(u: User): (text: Field)
    ensures DisplayIfPair(u.name) != "" ==> text == Scalar(u.name.display)
    ensures DisplayIfPair(u.name) == "" && DisplayIfPair(u.userName) != "" ==> text == Scalar(u.userName.display)
    ensures DisplayIfPair(u.name) == "" && DisplayIfPair(u.userName) == "" ==>
      text == (if Truthy(u.name) then u.name else u.userName)
    ensures Truthy(text) <==> Truthy(u.name) || Truthy(u.userName)
  {
    if DisplayIfPair(u.name) != "" then Scalar(u.name.display)
    else if DisplayIfPair(u.userName) != "" then Scalar(u.userName.display)
    else if Truthy(u.name) then u.name
    else u.userName
  }

  /** Text put in the notification search box when a notification is picked: its name display, else the raw name. */
  function NotificationLabel(n: Notification): (text: Field)
    ensures DisplayIfPair(n.name) != "" ==> text == Scalar(n.name.display)
    ensures DisplayIfPair(n.name) == "" ==> text == n.name
    ensures Truthy(text) <==> Truthy(n.name)
  {
    if DisplayIfPair(n.name) != "" then Scalar(n.name.display) else n.name
  }

  /**
   * One dropdown entry: a title and an optional second line. A title of `None`
   * stands for a title expression that yields the record's name object itself,
   * which React refuses to render as a child, so the page fails to render.
   */
  datatype Entry = Entry(title: Option<string>, detail: Option<string>)

  /**
   * One entry of the user dropdown: titled by the name's display, else the user
   * name's display, always followed by the e-mail line. A non-empty title is the
   * text a pick of this entry puts in the box.
   */
  function UserEntry(u: User): (e: Entry)
    ensures e.title.Some?
    ensures e.title.value == "" <==> DisplayIfPair(u.name) == "" && DisplayIfPair(u.userName) == ""
    ensures e.title.value != "" ==> UserLabel(u) == Scalar(e.title.value)
    ensures e.detail == Some(DisplayIfPair(u.email))
  {
    Entry(Some(if DisplayIfPair(u.name) != "" then u.name.display else DisplayIfPair(u.userName)),
          Some(DisplayIfPair(u.email)))
  }

  /**
   * One entry of the notification dropdown: titled by the text a pick puts in the
   * box, or unrenderable when that is the name object; a description line only
   * when the description's display text is non-empty.
   */
  function NotificationEntry(n: Notification): (e: Entry)
    ensures e.title.None? <==> NotificationLabel(n).Pair?
    ensures e.title.Some? ==> NotificationLabel(n) == Scalar(e.title.value)
    ensures e.detail.Some? <==> DisplayIfPair(n.description) != ""
    ensures e.detail.Some? ==> e.detail.value == n.description.display
  {
    var shown := NotificationLabel(n);
    Entry(if shown.Scalar? then Some(shown.s) else None,
          if DisplayIfPair(n.description) != "" then Some(n.description.display) else None)
  }

  class Page {
    var formData: SubForm
    var users: seq<User>
    var notifications: seq<Notification>
    var isSubmitting: bool
    var message: Option<Message>
    var userSearch: Field
    var notificationSearch: Field
    var showUserDropdown: bool
    var showNotificationDropdown: bool

    constructor ()
      ensures formData == EmptyForm && users == [] && notifications == []
      ensures !isSubmitting && message == None
      ensures userSearch == Scalar("") && notificationSearch == Scalar("")
      ensures !showUserDropdown && !showNotificationDropdown
    {
      formData := EmptyForm;
      users := [];
      notifications := [];
      isSubmitting := false;
      message := None;
      userSearch := Scalar("");
      notificationSearch := Scalar("");
      showUserDropdown := false;
      showNotificationDropdown := false;
    }

    /** On mount, both lists are requested with an empty query: all users, and all subscribable notifications. */
    method MountLoads(host: Host) returns (usersReq: Request<SubscriptionService.Payload>, notificationsReq: Request<SubscriptionService.Payload>)
      ensures usersReq.path == TablePath + SubscriptionService.UserTable
      ensures SearchParams.GetParam(usersReq.query, "sysparm_query") == None
      ensures notificationsReq.path == TablePath + SubscriptionService.NotificationTable
      ensures SearchParams.GetParam(notificationsReq.query, "sysparm_query") == Some(SubscriptionService.SubscribableOnly)
    {
      usersReq := SubscriptionService.UsersRequest("", host);
      notificationsReq := SubscriptionService.NotificationsRequest("", host);
    }

    /** `loadUsers` after its call: the list is replaced on success and left as it was on any failure. */
    method UsersSettled(reply: Reply<seq<User>>)
      modifies this`users
      ensures reply.Response? && reply.ok ==> users == ResultOrEmpty(reply.body)
      ensures !(reply.Response? && reply.ok) ==> users == old(users)
    {
      var outcome := SubscriptionService.UsersOutcome(reply);
      if outcome.Ok? {
        users := outcome.value;
      }
    }

    /** `loadNotifications` after its call, likewise. */
    method NotificationsSettled(reply: Reply<seq<Notification>>)
      modifies this`notifications
      ensures reply.Response? && reply.ok ==> notifications == ResultOrEmpty(reply.body)
      ensures !(reply.Response? && reply.ok) ==> notifications == old(notifications)
    {
      var outcome := SubscriptionService.NotificationsOutcome(reply);
      if outcome.Ok? {
        notifications := outcome.value;
      }
    }

    /** Typing in the user box: the box shows the text, the dropdown opens, and users matching the text are requested. The chosen user is untouched. */
    method UserTyped(text: string, host: Host) returns (request: Request<SubscriptionService.Payload>)
      modifies this`userSearch, this`showUserDropdown
      ensures userSearch == Scalar(text) && showUserDropdown
      ensures request.path == TablePath + SubscriptionService.UserTable
      ensures text == "" ==> SearchParams.GetParam(request.query, "sysparm_query") == None
      ensures text != "" ==> SearchParams.GetParam(request.query, "sysparm_query") == Some(SubscriptionService.UserQuery(text))
    {
      userSearch := Scalar(text);
      request := SubscriptionService.UsersRequest(text, host);
      showUserDropdown := true;
    }

    /** Typing in the notification box, likewise; the request is always limited to subscribable notifications. */
    method NotificationTyped(text: string, host: Host) returns (request: Request<SubscriptionService.Payload>)
      modifies this`notificationSearch, this`showNotificationDropdown
      ensures notificationSearch == Scalar(text) && showNotificationDropdown
      ensures request.path == TablePath + SubscriptionService.NotificationTable
      ensures SearchParams.GetParam(request.query, "sysparm_query").Some?
      ensures text == "" <==> SearchParams.GetParam(request.query, "sysparm_query") == Some(SubscriptionService.SubscribableOnly)
      ensures text != "" ==>
        SearchParams.GetParam(request.query, "sysparm_query") == Some(SubscriptionService.SubscribableOnly + "^nameLIKE" + text)
    {
      notificationSearch := Scalar(text);
      request := SubscriptionService.NotificationsRequest(text, host);
      showNotificationDropdown := true;
    }

    method UserFocused()
      modifies this`showUserDropdown
      ensures showUserDropdown
    {
      showUserDropdown := true;
    }

    method NotificationFocused()
      modifies this`showNotificationDropdown
      ensures showNotificationDropdown
    {
      showNotificationDropdown := true;
    }

    /** Picking a user: its id becomes the chosen user, its label fills the box, the dropdown closes; notification and channel are kept. */
    method UserSelected(u: User)
      modifies this`formData, this`userSearch, this`showUserDropdown
      ensures formData == old(formData).(user := IdOf(u.sysId))
      ensures userSearch == UserLabel(u) && !showUserDropdown
    {
      formData := formData.(user := IdOf(u.sysId));
      userSearch := UserLabel(u);
      showUserDropdown := false;
    }

    /** Picking a notification, likewise. */
    method NotificationSelected(n: Notification)
      modifies this`formData, this`notificationSearch, this`showNotificationDropdown
      ensures formData == old(formData).(notification := IdOf(n.sysId))
      ensures notificationSearch == NotificationLabel(n) && !showNotificationDropdown
    {
      formData := formData.(notification := IdOf(n.sysId));
      notificationSearch := NotificationLabel(n);
      showNotificationDropdown := false;
    }

    method ChannelChanged(channel: string)
      modifies this`formData
      ensures formData == old(formData).(channel := channel)
    {
      formData := formData.(channel := channel);
    }

    /** A mouse press anywhere in the document closes each dropdown it fell outside of, and never opens one. */
    method MouseDown(insideUser: bool, insideNotification: bool)
      modifies this`showUserDropdown, this`showNotificationDropdown
      ensures showUserDropdown == (old(showUserDropdown) && insideUser)
      ensures showNotificationDropdown == (old(showNotificationDropdown) && insideNotification)
    {
      if !insideUser {
        showUserDropdown := false;
      }
      if !insideNotification {
        showNotificationDropdown := false;
      }
    }

    /** `handleSubmit` up to the call: the chosen user and notification, and the channel sent as `device`. */
    method StartSubmit(host: Host) returns (request: Request<SubscriptionService.Payload>)
      modifies this`isSubmitting, this`message
      ensures isSubmitting && message == None
      ensures request.verb == Post && request.path == TablePath + SubscriptionService.TableName
      ensures request.body == Some(SubscriptionService.Payload(formData.user, formData.notification, formData.channel))
    {
      isSubmitting := true;
      message := None;
      request := SubscriptionService.CreateRequest(SubscriptionService.Payload(formData.user, formData.notification, formData.channel), host);
    }

    /** `handleSubmit` after the call: success empties the form and both boxes; failure keeps them; the flag ends false. */
    method SettleSubmit<R>(reply: Reply<R>)
      modifies this`formData, this`userSearch, this`notificationSearch, this`message, this`isSubmitting
      ensures !isSubmitting
      ensures reply.Response? && reply.ok ==>
        formData == EmptyForm && userSearch == Scalar("") && notificationSearch == Scalar("") && message == Some(CreatedMessage)
      ensures !(reply.Response? && reply.ok) ==>
        formData == old(formData) && userSearch == old(userSearch) && notificationSearch == old(notificationSearch)
        && message == Some(FailedMessage)
    {
      var outcome := SubscriptionService.CreateOutcome(reply);
      if outcome.Ok? {
        message := Some(CreatedMessage);
        formData := EmptyForm;
        userSearch := Scalar("");
        notificationSearch := Scalar("");
      } else {
        message := Some(FailedMessage);
      }
      isSubmitting := false;
    }

    /** Clear: empty form, empty boxes, no message; the loaded lists and dropdowns are untouched. */
    method Clear()
      modifies this`formData, this`userSearch, this`notificationSearch, this`message
      ensures formData == EmptyForm && userSearch == Scalar("") && notificationSearch == Scalar("") && message == None
    {
      formData := EmptyForm;
      userSearch := Scalar("");
      notificationSearch := Scalar("");
      message := None;
    }

    /** The submit button is disabled while submitting or while any of user, notification or channel is falsy. */
    function SubmitDisabled(): (disabled: bool)
      reads this
      ensures !disabled <==> !isSubmitting && Truthy(formData.user) && Truthy(formData.notification) && formData.channel != ""
    {
      isSubmitting || !Truthy(formData.user) || !Truthy(formData.notification) || formData.channel == ""
    }

    /** A dropdown is drawn only while it is open and its list has entries. */
    function UserDropdown(): (entries: Option<seq<Entry>>)
      reads this
      ensures entries.Some? <==> showUserDropdown && |users| > 0
      ensures entries.Some? ==> |entries.value| == |users|
      ensures entries.Some? ==> forall i :: 0 <= i < |users| ==> entries.value[i] == UserEntry(users[i])
    {
      if showUserDropdown && |users| > 0 then Some(seq(|users|, i requires 0 <= i < |users| reads this => UserEntry(users[i])))
      else None
    }

    function NotificationDropdown(): (entries: Option<seq<Entry>>)
      reads this
      ensures entries.Some? <==> showNotificationDropdown && |notifications| > 0
      ensures entries.Some? ==> |entries.value| == |notifications|
      ensures entries.Some? ==> forall i :: 0 <= i < |notifications| ==> entries.value[i] == NotificationEntry(notifications[i])
    {
      if showNotificationDropdown && |notifications| > 0 then
        Some(seq(|notifications|, i requires 0 <= i < |notifications| reads this => NotificationEntry(notifications[i])))
      else None
    }
  }

  /** A state with the form filled in from the dropdowns and a channel chosen, and no submission pending, can be submitted. */
  lemma PickedFormEnablesSubmit(u: User, n: Notification, channel: string, p: Page)
    requires Truthy(u.sysId) && Truthy(n.sysId) && channel != ""
    requires p.formData == SubForm(IdOf(u.sysId), IdOf(n.sysId), channel) && !p.isSubmitting
    ensures !p.SubmitDisabled()
  {
  }

  /** After a successful submission or a Clear the form is empty again, so the button is disabled until the user picks anew. */
  lemma EmptyFormDisablesSubmit(p: Page)
    requires p.formData == EmptyForm
    ensures p.SubmitDisabled()
  {
  }
}
