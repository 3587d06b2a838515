/** Notification services (backend/apps/notifications/services.py):
    creating a notification, delivering it over the enabled channels with
    one delivery row per (notification, channel), and the four
    notification builders. Sending an email is an outside call whose
    outcome is an input: `Mailer` gives it per notification id. Rendering,
    logging and the push service are not part of this model. */
module NotificationServices {
  import opened Common
  import opened NotificationModels

  datatype UserInfo = UserInfo(id: int, username: string, email: string)

  /** The values the builders store in a notification's metadata. */
  datatype MetaValue = MInt(i: int) | MStrings(items: seq<string>)
  type Metadata = map<string, MetaValue>

  datatype NotificationRecord = NotificationRecord(
    userId: int, notificationType: string, title: string, message: string,
    pollId: Option<int>, voteId: Option<int>, metadata: Metadata, read: ReadState)

  /** The outcome of send_mail. */
  datatype SendResult = Delivered | SendFailed(error: string)
  type Mailer = int -> SendResult

  /** The notification, preference and delivery tables. Notification ids
      are positions; deliveries are keyed by (notification id, channel),
      which is what makes that pair unique. */
  datatype Center = Center(notifications: seq<NotificationRecord>,
                           preferences: map<int, Preferences>,
                           deliveries: map<(int, string), Delivery>)

  /** Every delivery belongs to an existing notification. */
  predicate WellFormed(c: Center) {
    forall k :: k in c.deliveries ==> 0 <= k.0 < |c.notifications|
  }

  // ---------------------------------------------------------------------
  // Delivery

  /** deliver_via_email on delivery `d` for a user with address `email`. */
  function EmailAttempt(d: Delivery, email: string, sent: SendResult, now: int): (e: Delivery)
    ensures email == "" ==> e.status == Failed && e.errorMessage == "User has no email address"
    ensures email != "" && sent == Delivered ==> e.status == Sent && e.sentAt == Some(now)
    ensures email != "" && sent.SendFailed? ==> e.status == Failed
  {
    if email == "" then MarkedFailed(d, Some("User has no email address"))
    else match sent
         case Delivered => MarkedSent(d, None, now)
         case SendFailed(error) => MarkedFailed(d, Some(error))
  }

  /** The channel's delivery routine: in-app and push are marked sent. */
  function ChannelAttempt(channel: string, d: Delivery, email: string, sent: SendResult, now: int): (e: Delivery)
    ensures channel == InAppChannel || channel == PushChannel ==> e == MarkedSent(d, None, now)
    ensures channel == EmailChannel ==> e == EmailAttempt(d, email, sent, now)
  {
    if channel == EmailChannel then EmailAttempt(d, email, sent, now)
    else if channel == InAppChannel || channel == PushChannel then MarkedSent(d, None, now)
    else d
  }

  /** One iteration of deliver_notification's channel loop. */
  function DeliverStep(ds: map<(int, string), Delivery>, nid: int, notificationType: string,
                       flags: Flags, channel: string, email: string, sent: SendResult,
                       now: int): map<(int, string), Delivery>
  {
    var key := (nid, channel);
    if !ChannelEnabled(flags, notificationType, channel) then ds
    else if key in ds && ds[key].status == Sent then ds
    else ds[key := ChannelAttempt(channel, if key in ds then ds[key] else NewDelivery, email, sent, now)]
  }

  /** deliver_notification over the channels `chans`, in order. */
  function DeliverAll(ds: map<(int, string), Delivery>, nid: int, notificationType: string,
                      flags: Flags, chans: seq<string>, email: string, sent: SendResult,
                      now: int): map<(int, string), Delivery>
  {
    if chans == [] then ds
    else DeliverStep(DeliverAll(ds, nid, notificationType, flags, chans[..|chans| - 1], email, sent, now),
                     nid, notificationType, flags, chans[|chans| - 1], email, sent, now)
  }

  /** A step touches the delivery of its own channel and nothing else. */
  lemma StepTouchesOwnKey(ds: map<(int, string), Delivery>, nid: int, notificationType: string,
                          flags: Flags, channel: string, email: string, sent: SendResult, now: int,
                          k: (int, string))
    requires k != (nid, channel)
    ensures var r := DeliverStep(ds, nid, notificationType, flags, channel, email, sent, now);
      (k in r <==> k in ds) && (k in ds ==> r[k] == ds[k])
  {
  }

  /** The outcome of one step for its own channel: a disabled channel gets
      no row, a row already sent is left alone, and otherwise the row
      (created pending if absent) goes through the channel's routine. */
  lemma StepOutcome(ds: map<(int, string), Delivery>, nid: int, notificationType: string,
                    flags: Flags, channel: string, email: string, sent: SendResult, now: int)
    ensures var r := DeliverStep(ds, nid, notificationType, flags, channel, email, sent, now);
      var key := (nid, channel);
      && (!ChannelEnabled(flags, notificationType, channel) ==> r == ds)
      && (key in ds && ds[key].status == Sent ==> r == ds)
      && (ChannelEnabled(flags, notificationType, channel) && !(key in ds && ds[key].status == Sent) ==>
            key in r &&
            r[key] == ChannelAttempt(channel, if key in ds then ds[key] else NewDelivery, email, sent, now))
  {
  }

  /** After delivering over all channels, each channel's row is what its
      own step made of it, and rows of other notifications or of other
      channel names are untouched. */
  lemma DeliverAllPerChannel(ds: map<(int, string), Delivery>, nid: int, notificationType: string,
                             flags: Flags, email: string, sent: SendResult, now: int, k: (int, string))
    ensures var r := DeliverAll(ds, nid, notificationType, flags, Channels, email, sent, now);
      var one := DeliverStep(ds, nid, notificationType, flags, k.1, email, sent, now);
      && (k.0 == nid && k.1 in Channels ==> (k in r <==> k in one) && (k in r ==> r[k] == one[k]))
      && (k.0 != nid || k.1 !in Channels ==> (k in r <==> k in ds) && (k in ds ==> r[k] == ds[k]))
  {
    var d0 := ds;
    var d1 := DeliverStep(d0, nid, notificationType, flags, EmailChannel, email, sent, now);
    var d2 := DeliverStep(d1, nid, notificationType, flags, InAppChannel, email, sent, now);
    var d3 := DeliverStep(d2, nid, notificationType, flags, PushChannel, email, sent, now);
    DeliverAllUnfolds(ds, nid, notificationType, flags, email, sent, now);
    if k == (nid, EmailChannel) {
      StepTouchesOwnKey(d1, nid, notificationType, flags, InAppChannel, email, sent, now, k);
      StepTouchesOwnKey(d2, nid, notificationType, flags, PushChannel, email, sent, now, k);
    } else if k == (nid, InAppChannel) {
      StepTouchesOwnKey(d0, nid, notificationType, flags, EmailChannel, email, sent, now, k);
      StepTouchesOwnKey(d2, nid, notificationType, flags, PushChannel, email, sent, now, k);
      SameStepOnAgreeingKey(d0, d1, nid, notificationType, flags, InAppChannel, email, sent, now);
    } else if k == (nid, PushChannel) {
      StepTouchesOwnKey(d0, nid, notificationType, flags, EmailChannel, email, sent, now, k);
      StepTouchesOwnKey(d1, nid, notificationType, flags, InAppChannel, email, sent, now, k);
      SameStepOnAgreeingKey(d0, d2, nid, notificationType, flags, PushChannel, email, sent, now);
    } else {
      StepTouchesOwnKey(d0, nid, notificationType, flags, EmailChannel, email, sent, now, k);
      StepTouchesOwnKey(d1, nid, notificationType, flags, InAppChannel, email, sent, now, k);
      StepTouchesOwnKey(d2, nid, notificationType, flags, PushChannel, email, sent, now, k);
    }
  }

  /** Delivering over the three channels is the three steps in order. */
  lemma DeliverAllUnfolds(ds: map<(int, string), Delivery>, nid: int, notificationType: string,
                          flags: Flags, email: string, sent: SendResult, now: int)
    ensures DeliverAll(ds, nid, notificationType, flags, Channels, email, sent, now) ==
      DeliverStep(DeliverStep(DeliverStep(ds, nid, notificationType, flags, EmailChannel, email, sent, now),
                              nid, notificationType, flags, InAppChannel, email, sent, now),
                  nid, notificationType, flags, PushChannel, email, sent, now)
  {
    var c2 := [EmailChannel, InAppChannel];
    var c1 := [EmailChannel];
    assert Channels[..2] == c2;
    assert c2[..1] == c1;
    assert c1[..0] == [];
    var d1 := DeliverStep(ds, nid, notificationType, flags, EmailChannel, email, sent, now);
    assert DeliverAll(ds, nid, notificationType, flags, c1, email, sent, now) == d1;
    var d2 := DeliverStep(d1, nid, notificationType, flags, InAppChannel, email, sent, now);
    assert DeliverAll(ds, nid, notificationType, flags, c2, email, sent, now) == d2;
  }

  /** A step's result for its own key depends only on that key's row. */
  lemma SameStepOnAgreeingKey(a: map<(int, string), Delivery>, b: map<(int, string), Delivery>,
                              nid: int, notificationType: string, flags: Flags, channel: string,
                              email: string, sent: SendResult, now: int)
    requires ((nid, channel) in a <==> (nid, channel) in b)
    requires (nid, channel) in a ==> a[(nid, channel)] == b[(nid, channel)]
    ensures var ra := DeliverStep(a, nid, notificationType, flags, channel, email, sent, now);
      var rb := DeliverStep(b, nid, notificationType, flags, channel, email, sent, now);
      ((nid, channel) in ra <==> (nid, channel) in rb) &&
      ((nid, channel) in ra ==> ra[(nid, channel)] == rb[(nid, channel)])
  {
  }

  /** In-app and push rows of an enabled channel always end sent, unless
      already sent before; an email to a user without an address ends
      failed with its fixed message. */
  lemma ChannelEndStates(ds: map<(int, string), Delivery>, nid: int, notificationType: string,
                         flags: Flags, channel: string, email: string, sent: SendResult, now: int)
    requires ChannelEnabled(flags, notificationType, channel)
    ensures var r := DeliverStep(ds, nid, notificationType, flags, channel, email, sent, now);
      && (nid, channel) in r
      && (channel == InAppChannel || channel == PushChannel ==> r[(nid, channel)].status == Sent)
      && (channel == EmailChannel && email == "" && !((nid, channel) in ds && ds[(nid, channel)].status == Sent) ==>
            r[(nid, channel)].status == Failed && r[(nid, channel)].errorMessage == "User has no email address")
      && (channel == EmailChannel && email != "" && !((nid, channel) in ds && ds[(nid, channel)].status == Sent) ==>
            (r[(nid, channel)].status == Sent <==> sent == Delivered))
  {
  }

  // ---------------------------------------------------------------------
  // create_notification

  /** get_or_create_preferences: the stored row or the defaults. */
  function PreferencesOf(ps: map<int, Preferences>, userId: int): (p: Preferences)
    ensures userId in ps ==> p == ps[userId]
    ensures userId !in ps ==> p == DefaultPreferences
  {
    if userId in ps then ps[userId] else DefaultPreferences
  }

  function NewNotification(user: UserInfo, notificationType: string, title: string, message: string,
                           pollId: Option<int>, voteId: Option<int>, metadata: Option<Metadata>): NotificationRecord
  {
    NotificationRecord(user.id, notificationType, title, message, pollId, voteId,
                       if metadata.Some? then metadata.value else map[], ReadState(false, None))
  }

  /** create_notification: the notification is always stored, the user's
      preferences are created if missing, and an unsubscribed user gets no
      delivery attempt. */
  function Created(c: Center, user: UserInfo, notificationType: string, title: string, message: string,
                   pollId: Option<int>, voteId: Option<int>, metadata: Option<Metadata>,
                   mailer: Mailer, now: int): (r: Center)
    ensures r.notifications == c.notifications +
      [NewNotification(user, notificationType, title, message, pollId, voteId, metadata)]
    ensures r.preferences == c.preferences[user.id := PreferencesOf(c.preferences, user.id)]
  {
    var nid := |c.notifications|;
    var prefs := PreferencesOf(c.preferences, user.id);
    Center(c.notifications + [NewNotification(user, notificationType, title, message, pollId, voteId, metadata)],
           c.preferences[user.id := prefs],
           if prefs.flags.unsubscribed then c.deliveries
           else DeliverAll(c.deliveries, nid, notificationType, prefs.flags, Channels, user.email, mailer(nid), now))
  }

  /** A new notification's rows: an enabled channel has one, freshly
      created and put through its routine; a disabled channel, and every
      channel of an unsubscribed user, has none. Older rows are kept. */
  lemma CreatedDeliveries(c: Center, user: UserInfo, notificationType: string, title: string, message: string,
                          pollId: Option<int>, voteId: Option<int>, metadata: Option<Metadata>,
                          mailer: Mailer, now: int, channel: string)
    requires WellFormed(c)
    requires channel in Channels
    ensures var r := Created(c, user, notificationType, title, message, pollId, voteId, metadata, mailer, now);
      var nid := |c.notifications|;
      var flags := PreferencesOf(c.preferences, user.id).flags;
      && WellFormed(r)
      && ((nid, channel) in r.deliveries <==> ChannelEnabled(flags, notificationType, channel))
      && ((nid, channel) in r.deliveries ==>
            r.deliveries[(nid, channel)] == ChannelAttempt(channel, NewDelivery, user.email, mailer(nid), now))
      && (forall k :: k in c.deliveries ==> k in r.deliveries && r.deliveries[k] == c.deliveries[k])
  {
    var nid := |c.notifications|;
    var prefs := PreferencesOf(c.preferences, user.id);
    var r := Created(c, user, notificationType, title, message, pollId, voteId, metadata, mailer, now);
    if !prefs.flags.unsubscribed {
      DeliverAllPerChannel(c.deliveries, nid, notificationType, prefs.flags, user.email, mailer(nid), now, (nid, channel));
      StepOutcome(c.deliveries, nid, notificationType, prefs.flags, channel, user.email, mailer(nid), now);
      forall k | k in c.deliveries ensures k in r.deliveries && r.deliveries[k] == c.deliveries[k] {
        DeliverAllPerChannel(c.deliveries, nid, notificationType, prefs.flags, user.email, mailer(nid), now, k);
      }
      forall k | k in r.deliveries ensures 0 <= k.0 < |r.notifications| {
        DeliverAllPerChannel(c.deliveries, nid, notificationType, prefs.flags, user.email, mailer(nid), now, k);
        if k.0 == nid && k.1 in Channels {
          StepOutcome(c.deliveries, nid, notificationType, prefs.flags, k.1, user.email, mailer(nid), now);
        }
      }
    }
  }

  // ---------------------------------------------------------------------
  // Builders

  datatype PollInfo = PollInfo(id: int, title: string, createdBy: Option<UserInfo>, endsAt: Option<int>)
  datatype VoteInfo = VoteInfo(id: int, user: Option<UserInfo>, poll: PollInfo)

  /** notify_poll_results_available: the given user, else the poll's
      creator; nothing when there is neither. */
  function ResultsAvailable(c: Center, poll: PollInfo, user: Option<UserInfo>, mailer: Mailer, now: int): (r: Center)
    ensures user.None? && poll.createdBy.None? ==> r == c
    ensures |r.notifications| == |c.notifications| + (if user.Some? || poll.createdBy.Some? then 1 else 0)
  {
    var target := if user.Some? then user else poll.createdBy;
    match target
    case None => c
    case Some(u) =>
      Created(c, u, PollResultsAvailable, "Results Available: " + poll.title,
              "The results for '" + poll.title + "' are now available. Check them out!",
              Some(poll.id), None, None, mailer, now)
  }

  /** The recipient of the results notification. */
  lemma ResultsAvailableRecipient(c: Center, poll: PollInfo, user: Option<UserInfo>, mailer: Mailer, now: int)
    requires user.Some? || poll.createdBy.Some?
    ensures var r := ResultsAvailable(c, poll, user, mailer, now);
      r.notifications[|c.notifications|].userId == (if user.Some? then user.value.id else poll.createdBy.value.id)
      && r.notifications[|c.notifications|].notificationType == PollResultsAvailable
  {
  }

  /** The message of the database's not-null IntegrityError that
      `Notification.objects.create(user=None)` raises, since the
      notification's user column is not nullable; the wording is SQLite's,
      and another backend words it differently. */
  const NullUserError := "NOT NULL constraint failed: notifications_notification.user_id"

  /** The error reading `poll.created_by.username` of a poll without a
      creator raises. */
  const NoCreatorError := "'NoneType' object has no attribute 'username'"

  /** notify_new_poll_from_followed for the followers `fs`, in order. The
      first follower's title reads the creator's name, so a poll without a
      creator raises there, before anything is created. */
  function NewPollNotified(c: Center, poll: PollInfo, fs: seq<UserInfo>, mailer: Mailer, now: int): (r: Outcome<Center>)
    ensures r.Raised? <==> fs != [] && poll.createdBy.None?
    ensures r.Raised? ==> r.message == NoCreatorError
    ensures r.Ok? ==> |r.value.notifications| == |c.notifications| + |fs|
    ensures r.Ok? ==> forall i :: 0 <= i < |fs| ==>
      FollowerNotice(r.value.notifications[|c.notifications| + i], fs[i], poll.createdBy.value, poll)
  {
    if fs == [] then Ok(c)
    else if poll.createdBy.None? then Raised(NoCreatorError)
    else
      EveryFollowerNotified(c, poll, poll.createdBy.value, fs, mailer, now);
      Ok(FollowersNotified(c, poll, poll.createdBy.value, fs, mailer, now))
  }

  /** The loop of notify_new_poll_from_followed once the creator's name is
      known: one create_notification per follower. */
  function FollowersNotified(c: Center, poll: PollInfo, creator: UserInfo, fs: seq<UserInfo>,
                             mailer: Mailer, now: int): (r: Center)
    ensures |r.notifications| == |c.notifications| + |fs|
  {
    if fs == [] then c
    else
      Created(FollowersNotified(c, poll, creator, fs[..|fs| - 1], mailer, now), fs[|fs| - 1],
              NewPollFromFollowed, "New Poll from " + creator.username,
              creator.username + " created a new poll: '" + poll.title + "'",
              Some(poll.id), None, None, mailer, now)
  }

  /** Every follower gets one notification, in follower order, naming the
      creator and the poll. */
  lemma {:induction false} NewPollRecipients(c: Center, poll: PollInfo, creator: UserInfo, fs: seq<UserInfo>,
                                             mailer: Mailer, now: int, i: nat)
    requires i < |fs|
    ensures FollowerNotice(FollowersNotified(c, poll, creator, fs, mailer, now).notifications[|c.notifications| + i],
                           fs[i], creator, poll)
  {
    if i < |fs| - 1 {
      NewPollRecipients(c, poll, creator, fs[..|fs| - 1], mailer, now, i);
      assert fs[..|fs| - 1][i] == fs[i];
    }
  }

  /** `n` is the new-poll notification for follower `f` of `creator`'s `poll`. */
  predicate FollowerNotice(n: NotificationRecord, f: UserInfo, creator: UserInfo, poll: PollInfo) {
    n.userId == f.id && n.notificationType == NewPollFromFollowed &&
    n.title == "New Poll from " + creator.username &&
    n.message == creator.username + " created a new poll: '" + poll.title + "'" &&
    n.pollId == Some(poll.id)
  }

  lemma EveryFollowerNotified(c: Center, poll: PollInfo, creator: UserInfo, fs: seq<UserInfo>, mailer: Mailer, now: int)
    ensures var r := FollowersNotified(c, poll, creator, fs, mailer, now);
      forall i :: 0 <= i < |fs| ==> FollowerNotice(r.notifications[|c.notifications| + i], fs[i], creator, poll)
  {
    var r := FollowersNotified(c, poll, creator, fs, mailer, now);
    forall i | 0 <= i < |fs|
      ensures FollowerNotice(r.notifications[|c.notifications| + i], fs[i], creator, poll)
    {
      NewPollRecipients(c, poll, creator, fs, mailer, now, i);
    }
  }

  /** notify_poll_about_to_expire's test: the poll has an end, and the time
      left (negative once it has ended) is at most `hoursBefore` hours. */
  predicate ExpiryDue(poll: PollInfo, hoursBefore: int, now: int) {
    poll.endsAt.Some? && poll.endsAt.value - now <= hoursBefore * MicrosPerHour
  }

  /** notify_poll_about_to_expire; a due poll without a creator raises, as
      the notification is created for user None. */
  function ExpiryNotified(c: Center, poll: PollInfo, hoursBefore: int, mailer: Mailer, now: int): (r: Outcome<Center>)
    ensures !ExpiryDue(poll, hoursBefore, now) ==> r == Ok(c)
    ensures r.Raised? <==> ExpiryDue(poll, hoursBefore, now) && poll.createdBy.None?
    ensures r.Raised? ==> r.message == NullUserError
  {
    if !ExpiryDue(poll, hoursBefore, now) then Ok(c)
    else if poll.createdBy.None? then Raised(NullUserError)
    else
      var left := poll.endsAt.value - now;
      Ok(Created(c, poll.createdBy.value, PollAboutToExpire, "Poll Expiring Soon: " + poll.title,
                 "Your poll '" + poll.title + "' will expire in less than " + IntToString(hoursBefore) + " hours.",
                 Some(poll.id), None,
                 Some(map["hours_until_expiry" := MInt(TruncDiv(left, MicrosPerHour))]), mailer, now))
  }

  /** A poll without an end is never notified; a poll already past its end
      is notified for any non-negative lead time; the stored hour count is
      the time left truncated toward zero. */
  lemma ExpiryThreshold(c: Center, poll: PollInfo, hoursBefore: int, mailer: Mailer, now: int)
    ensures poll.endsAt.None? ==> ExpiryNotified(c, poll, hoursBefore, mailer, now) == Ok(c)
    ensures poll.endsAt.Some? && poll.endsAt.value <= now && hoursBefore >= 0 ==> ExpiryDue(poll, hoursBefore, now)
    ensures ExpiryDue(poll, hoursBefore, now) && poll.createdBy.Some? ==>
      var n := ExpiryNotified(c, poll, hoursBefore, mailer, now).value.notifications[|c.notifications|];
      var left := poll.endsAt.value - now;
      && n.userId == poll.createdBy.value.id
      && "hours_until_expiry" in n.metadata
      && n.metadata["hours_until_expiry"].MInt?
      && var h := n.metadata["hours_until_expiry"].i;
         (left >= 0 ==> h * MicrosPerHour <= left < (h + 1) * MicrosPerHour) &&
         (left < 0 ==> (h - 1) * MicrosPerHour < left <= h * MicrosPerHour)
  {
  }

  function FlaggedMessage(pollTitle: string, reasons: seq<string>): string {
    "Your vote in '" + pollTitle + "' was flagged for the following reasons: " + Join(reasons, ", ")
  }

  /** notify_vote_flagged: the tables after it, or the IntegrityError raised
      for an anonymous vote, in which case nothing was created. */
  function VoteFlaggedNotified(c: Center, vote: VoteInfo, reasons: seq<string>, mailer: Mailer, now: int): (r: Outcome<Center>)
    ensures r.Raised? <==> vote.user.None?
    ensures r.Raised? ==> r.message == NullUserError
    ensures r.Ok? ==> |r.value.notifications| == |c.notifications| + 1
    ensures r.Ok? ==> r.value.notifications[|c.notifications|].userId == vote.user.value.id
    ensures r.Ok? ==> r.value.notifications[|c.notifications|].notificationType == VoteFlagged
    ensures r.Ok? ==> r.value.notifications[|c.notifications|].metadata == map["fraud_reasons" := MStrings(reasons)]
    ensures r.Ok? ==> r.value.notifications[|c.notifications|].message == FlaggedMessage(vote.poll.title, reasons)
  {
    if vote.user.None? then Raised(NullUserError)
    else Ok(Created(c, vote.user.value, VoteFlagged, "Your Vote Was Flagged", FlaggedMessage(vote.poll.title, reasons),
                    Some(vote.poll.id), Some(vote.id), Some(map["fraud_reasons" := MStrings(reasons)]), mailer, now))
  }

  /** Every reason appears in the flagged-vote message. */
  lemma FlaggedMessageNamesReasons(pollTitle: string, reasons: seq<string>, k: nat)
    requires k < |reasons|
    ensures Contains(FlaggedMessage(pollTitle, reasons), reasons[k])
  {
    var head := "Your vote in '" + pollTitle + "' was flagged for the following reasons: ";
    var joined := Join(reasons, ", ");
    JoinContainsParts(reasons, ", ", k);
    var i :| 0 <= i <= |joined| - |reasons[k]| && OccursAt(joined, reasons[k], i);
    var m := FlaggedMessage(pollTitle, reasons);
    assert m == head + joined;
    assert m[|head| + i..|head| + i + |reasons[k]|] == joined[i..i + |reasons[k]|];
    assert OccursAt(m, reasons[k], |head| + i);
  }

  // ---------------------------------------------------------------------
  // The service over the tables

  class NotificationService {
    var notifications: seq<NotificationRecord>
    var preferences: map<int, Preferences>
    var deliveries: map<(int, string), Delivery>

    function State(): Center
      reads this
    {
      Center(notifications, preferences, deliveries)
    }

    constructor ()
      ensures State() == Center([], map[], map[])
    {
      notifications := [];
      preferences := map[];
      deliveries := map[];
    }

    /** deliver_notification: visits EMAIL, IN_APP and PUSH in order. */
    method DeliverNotification(nid: int, flags: Flags, email: string, sent: SendResult, now: int)
      requires 0 <= nid < |notifications|
      modifies this
      ensures notifications == old(notifications) && preferences == old(preferences)
      ensures deliveries == DeliverAll(old(deliveries), nid, notifications[nid].notificationType, flags,
                                       Channels, email, sent, now)
    {
      var notificationType := notifications[nid].notificationType;
      for i := 0 to |Channels|
        invariant notifications == old(notifications) && preferences == old(preferences)
        invariant deliveries == DeliverAll(old(deliveries), nid, notificationType, flags, Channels[..i],
                                           email, sent, now)
      {
        var channel := Channels[i];
        assert Channels[..i + 1][..i] == Channels[..i];
        if ChannelEnabled(flags, notificationType, channel) {
          var key := (nid, channel);
          var created := key !in deliveries;
          var delivery := if created then NewDelivery else deliveries[key];
          if created || delivery.status != Sent {
            deliveries := deliveries[key := ChannelAttempt(channel, delivery, email, sent, now)];
          }
        }
      }
      assert Channels[..|Channels|] == Channels;
    }

    /** create_notification; returns the new notification's id. */
    method CreateNotification(user: UserInfo, notificationType: string, title: string, message: string,
                              pollId: Option<int>, voteId: Option<int>, metadata: Option<Metadata>,
                              mailer: Mailer, now: int) returns (nid: int)
      modifies this
      ensures nid == |old(notifications)|
      ensures State() == Created(old(State()), user, notificationType, title, message, pollId, voteId,
                                 metadata, mailer, now)
    {
      nid := |notifications|;
      notifications := notifications + [NewNotification(user, notificationType, title, message, pollId, voteId, metadata)];
      var prefs := PreferencesOf(preferences, user.id);
      preferences := preferences[user.id := prefs];
      if prefs.flags.unsubscribed {
        return;
      }
      DeliverNotification(nid, prefs.flags, user.email, mailer(nid), now);
    }

    method NotifyPollResultsAvailable(poll: PollInfo, user: Option<UserInfo>, mailer: Mailer, now: int)
      modifies this
      ensures State() == ResultsAvailable(old(State()), poll, user, mailer, now)
    {
      var target := if user.Some? then user else poll.createdBy;
      if target.None? {
        return;
      }
      var _ := CreateNotification(target.value, PollResultsAvailable, "Results Available: " + poll.title,
                                  "The results for '" + poll.title + "' are now available. Check them out!",
                                  Some(poll.id), None, None, mailer, now);
    }

    /** notify_new_poll_from_followed; raises, changing nothing, when the
        poll has followers to notify and no creator. */
    method NotifyNewPollFromFollowed(poll: PollInfo, followers: seq<UserInfo>, mailer: Mailer, now: int)
      returns (r: Outcome<()>)
      modifies this
      ensures var o := NewPollNotified(old(State()), poll, followers, mailer, now);
        (r.Raised? <==> o.Raised?) && (o.Raised? ==> r.message == o.message) &&
        State() == (if o.Ok? then o.value else old(State()))
    {
      if followers == [] {
        return Ok(());
      }
      if poll.createdBy.None? {
        return Raised(NoCreatorError);
      }
      var creator := poll.createdBy.value;
      for i := 0 to |followers|
        invariant State() == FollowersNotified(old(State()), poll, creator, followers[..i], mailer, now)
      {
        assert followers[..i + 1][..i] == followers[..i];
        var _ := CreateNotification(followers[i], NewPollFromFollowed, "New Poll from " + creator.username,
                                    creator.username + " created a new poll: '" + poll.title + "'",
                                    Some(poll.id), None, None, mailer, now);
      }
      assert followers[..|followers|] == followers;
      r := Ok(());
    }

    /** notify_poll_about_to_expire; raises, changing nothing, for a due
        poll without a creator. */
    method NotifyPollAboutToExpire(poll: PollInfo, hoursBefore: int, mailer: Mailer, now: int) returns (r: Outcome<()>)
      modifies this
      ensures var o := ExpiryNotified(old(State()), poll, hoursBefore, mailer, now);
        (r.Raised? <==> o.Raised?) && (o.Raised? ==> r.message == o.message) &&
        State() == (if o.Ok? then o.value else old(State()))
    {
      if poll.endsAt.None? {
        return Ok(());
      }
      var left := poll.endsAt.value - now;
      if left <= hoursBefore * MicrosPerHour {
        if poll.createdBy.None? {
          return Raised(NullUserError);
        }
        var _ := CreateNotification(poll.createdBy.value, PollAboutToExpire, "Poll Expiring Soon: " + poll.title,
                                    "Your poll '" + poll.title + "' will expire in less than "
                                      + IntToString(hoursBefore) + " hours.",
                                    Some(poll.id), None,
                                    Some(map["hours_until_expiry" := MInt(TruncDiv(left, MicrosPerHour))]),
                                    mailer, now);
      }
      r := Ok(());
    }

    /** notify_vote_flagged; raises, changing nothing, for an anonymous vote. */
    method NotifyVoteFlagged(vote: VoteInfo, reasons: seq<string>, mailer: Mailer, now: int) returns (r: Outcome<()>)
      modifies this
      ensures var o := VoteFlaggedNotified(old(State()), vote, reasons, mailer, now);
        (r.Raised? <==> o.Raised?) && (o.Raised? ==> r.message == o.message) &&
        State() == (if o.Ok? then o.value else old(State()))
    {
      if vote.user.None? {
        return Raised(NullUserError);
      }
      var _ := CreateNotification(vote.user.value, VoteFlagged, "Your Vote Was Flagged",
                                  FlaggedMessage(vote.poll.title, reasons), Some(vote.poll.id), Some(vote.id),
                                  Some(map["fraud_reasons" := MStrings(reasons)]), mailer, now);
      r := Ok(());
    }
  }
}
