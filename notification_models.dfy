/** Notification models (backend/apps/notifications/models.py): the
    per-user channel preferences and their enable decision, a
    notification's read flag, and a delivery's status updates. Times are
    integer timestamps supplied by the caller. */
module NotificationModels {
  import opened Common

  // ---------------------------------------------------------------------
  // Choices

  const PollResultsAvailable := "poll_results_available"
  const NewPollFromFollowed := "new_poll_from_followed"
  const PollAboutToExpire := "poll_about_to_expire"
  const VoteFlagged := "vote_flagged"

  const EmailChannel := "email"
  const InAppChannel := "in_app"
  const PushChannel := "push"

  /** The notification types, and the delivery channels in declaration order. */
  const NotificationTypes: set<string> :=
    {PollResultsAvailable, NewPollFromFollowed, PollAboutToExpire, VoteFlagged}
  const Channels: seq<string> := [EmailChannel, InAppChannel, PushChannel]

  datatype DeliveryStatus = Pending | Sent | Failed | Bounced

  // ---------------------------------------------------------------------
  // NotificationPreference

  /** The boolean fields of a preference row. */
  datatype Flags = Flags(
    pollResultsAvailableEmail: bool, pollResultsAvailableInApp: bool, pollResultsAvailablePush: bool,
    newPollFromFollowedEmail: bool, newPollFromFollowedInApp: bool, newPollFromFollowedPush: bool,
    pollAboutToExpireEmail: bool, pollAboutToExpireInApp: bool, pollAboutToExpirePush: bool,
    voteFlaggedEmail: bool, voteFlaggedInApp: bool, voteFlaggedPush: bool,
    emailEnabled: bool, inAppEnabled: bool, pushEnabled: bool,
    unsubscribed: bool)

  /** A preference row: its boolean fields and the unsubscribe time. */
  datatype Preferences = Preferences(flags: Flags, unsubscribedAt: Option<int>)

  /** The field defaults: email and in-app on, push off, subscribed. */
  const DefaultPreferences: Preferences := Preferences(Flags(
    true, true, false, true, true, false, true, true, false, true, true, false,
    true, true, false, false), None)

  /** `getattr(preferences, name, False)` over the boolean fields. */
  function Attribute(p: Flags, name: string): bool {
    if |name| == 28 && name == "poll_results_available_email" then p.pollResultsAvailableEmail
    else if |name| == 29 && name == "poll_results_available_in_app" then p.pollResultsAvailableInApp
    else if |name| == 27 && name == "poll_results_available_push" then p.pollResultsAvailablePush
    else if |name| == 28 && name == "new_poll_from_followed_email" then p.newPollFromFollowedEmail
    else if |name| == 29 && name == "new_poll_from_followed_in_app" then p.newPollFromFollowedInApp
    else if |name| == 27 && name == "new_poll_from_followed_push" then p.newPollFromFollowedPush
    else if |name| == 26 && name == "poll_about_to_expire_email" then p.pollAboutToExpireEmail
    else if |name| == 27 && name == "poll_about_to_expire_in_app" then p.pollAboutToExpireInApp
    else if |name| == 25 && name == "poll_about_to_expire_push" then p.pollAboutToExpirePush
    else if |name| == 18 && name == "vote_flagged_email" then p.voteFlaggedEmail
    else if |name| == 19 && name == "vote_flagged_in_app" then p.voteFlaggedInApp
    else if |name| == 17 && name == "vote_flagged_push" then p.voteFlaggedPush
    else if |name| == 13 && name == "email_enabled" then p.emailEnabled
    else if |name| == 14 && name == "in_app_enabled" then p.inAppEnabled
    else if |name| == 12 && name == "push_enabled" then p.pushEnabled
    else if |name| == 12 && name == "unsubscribed" then p.unsubscribed
    else false
  }

  /** The flag of one (type, channel) pair, named as the model field is. */
  function TypeFlag(p: Flags, notificationType: string, channel: string): bool {
    Attribute(p, notificationType + "_" + channel)
  }

  /** is_channel_enabled */
  function ChannelEnabled(p: Flags, notificationType: string, channel: string): (r: bool)
    ensures p.unsubscribed ==> !r
    ensures channel == EmailChannel && !p.emailEnabled ==> !r
    ensures channel == InAppChannel && !p.inAppEnabled ==> !r
    ensures channel == PushChannel && !p.pushEnabled ==> !r
    ensures r ==> TypeFlag(p, notificationType, channel)
  {
    if p.unsubscribed then false
    else if channel == EmailChannel && !p.emailEnabled then false
    else if channel == InAppChannel && !p.inAppEnabled then false
    else if channel == PushChannel && !p.pushEnabled then false
    else TypeFlag(p, notificationType, channel)
  }

  /** A subscribed user whose channel is globally on gets exactly the
      per-type flag. */
  lemma ChannelEnabledOtherwise(p: Flags, notificationType: string, channel: string)
    requires !p.unsubscribed
    requires channel == EmailChannel ==> p.emailEnabled
    requires channel == InAppChannel ==> p.inAppEnabled
    requires channel == PushChannel ==> p.pushEnabled
    ensures ChannelEnabled(p, notificationType, channel) == TypeFlag(p, notificationType, channel)
  {
  }

  /** The three channels of a type read that type's own three fields. */
  lemma KnownPairsReadTheirField(p: Flags)
    ensures TypeFlag(p, VoteFlagged, EmailChannel) == p.voteFlaggedEmail
    ensures TypeFlag(p, VoteFlagged, InAppChannel) == p.voteFlaggedInApp
    ensures TypeFlag(p, VoteFlagged, PushChannel) == p.voteFlaggedPush
  {
    assert VoteFlagged + "_" + EmailChannel == "vote_flagged_email";
    assert VoteFlagged + "_" + InAppChannel == "vote_flagged_in_app";
    assert VoteFlagged + "_" + PushChannel == "vote_flagged_push";
  }

  /** With the defaults, push is off for every type, and email and in-app
      are on for the four known types. */
  lemma DefaultChannels(notificationType: string)
    ensures !ChannelEnabled(DefaultPreferences.flags, notificationType, PushChannel)
    ensures notificationType in NotificationTypes ==>
      ChannelEnabled(DefaultPreferences.flags, notificationType, EmailChannel) &&
      ChannelEnabled(DefaultPreferences.flags, notificationType, InAppChannel)
  {
    if notificationType in NotificationTypes {
      DefaultTypeFlags(notificationType);
    }
  }

  lemma DefaultTypeFlags(notificationType: string)
    requires notificationType in NotificationTypes
    ensures TypeFlag(DefaultPreferences.flags, notificationType, EmailChannel)
    ensures TypeFlag(DefaultPreferences.flags, notificationType, InAppChannel)
  {
    if notificationType == PollResultsAvailable {
      assert notificationType + "_" + EmailChannel == "poll_results_available_email";
      assert notificationType + "_" + InAppChannel == "poll_results_available_in_app";
    } else if notificationType == NewPollFromFollowed {
      assert notificationType + "_" + EmailChannel == "new_poll_from_followed_email";
      assert notificationType + "_" + InAppChannel == "new_poll_from_followed_in_app";
    } else if notificationType == PollAboutToExpire {
      assert notificationType + "_" + EmailChannel == "poll_about_to_expire_email";
      assert notificationType + "_" + InAppChannel == "poll_about_to_expire_in_app";
    } else {
      assert notificationType + "_" + EmailChannel == "vote_flagged_email";
      assert notificationType + "_" + InAppChannel == "vote_flagged_in_app";
    }
  }

  /** unsubscribe at time `now`: the flag and the time are set, no other
      field changes. */
  function Unsubscribed(p: Preferences, now: int): (q: Preferences)
    ensures q.flags.unsubscribed && q.unsubscribedAt == Some(now)
    ensures q.flags == p.flags.(unsubscribed := true)
  {
    Preferences(p.flags.(unsubscribed := true), Some(now))
  }

  /** resubscribe: the flag and the time are cleared, no other field changes. */
  function Resubscribed(p: Preferences): (q: Preferences)
    ensures !q.flags.unsubscribed && q.unsubscribedAt.None?
    ensures q.flags == p.flags.(unsubscribed := false)
  {
    Preferences(p.flags.(unsubscribed := false), None)
  }

  /** An unsubscribed user has every channel off. */
  lemma UnsubscribedGetsNothing(p: Preferences, now: int, notificationType: string, channel: string)
    ensures !ChannelEnabled(Unsubscribed(p, now).flags, notificationType, channel)
  {
  }

  /** Resubscribing after unsubscribing gives back a subscribed user's row,
      and with it every channel decision. */
  lemma UnsubscribeRoundTrip(p: Preferences, now: int)
    requires !p.flags.unsubscribed
    ensures Resubscribed(Unsubscribed(p, now)).flags == p.flags
    ensures p.unsubscribedAt.None? ==> Resubscribed(Unsubscribed(p, now)) == p
  {
  }

  /** A preference row. */
  class NotificationPreference {
    var prefs: Preferences

    constructor ()
      ensures prefs == DefaultPreferences
    {
      prefs := DefaultPreferences;
    }

    /** is_channel_enabled on this row. */
    function IsChannelEnabled(notificationType: string, channel: string): bool
      reads this
    {
      ChannelEnabled(prefs.flags, notificationType, channel)
    }

    method Unsubscribe(now: int)
      modifies this
      ensures prefs == Unsubscribed(old(prefs), now)
    {
      prefs := Preferences(prefs.flags.(unsubscribed := true), Some(now));
    }

    method Resubscribe()
      modifies this
      ensures prefs == Resubscribed(old(prefs))
    {
      prefs := Preferences(prefs.flags.(unsubscribed := false), None);
    }
  }

  // ---------------------------------------------------------------------
  // Notification.mark_as_read

  datatype ReadState = ReadState(isRead: bool, readAt: Option<int>)

  /** mark_as_read at time `now`: only an unread notification changes. */
  function MarkedRead(s: ReadState, now: int): (t: ReadState)
    ensures t.isRead
    ensures s.isRead ==> t == s
    ensures !s.isRead ==> t.readAt == Some(now)
  {
    if !s.isRead then ReadState(true, Some(now)) else s
  }

  /** Marking as read twice is marking once: the first read time stays. */
  lemma MarkAsReadIdempotent(s: ReadState, t1: int, t2: int)
    ensures MarkedRead(MarkedRead(s, t1), t2) == MarkedRead(s, t1)
    ensures !s.isRead ==> MarkedRead(MarkedRead(s, t1), t2).readAt == Some(t1)
  {
  }

  class Notification {
    var state: ReadState

    constructor ()
      ensures state == ReadState(false, None)
    {
      state := ReadState(false, None);
    }

    method MarkAsRead(now: int)
      modifies this
      ensures state == MarkedRead(old(state), now)
    {
      if !state.isRead {
        state := ReadState(true, Some(now));
      }
    }
  }

  // ---------------------------------------------------------------------
  // NotificationDelivery

  datatype Delivery = Delivery(status: DeliveryStatus, sentAt: Option<int>,
                               errorMessage: string, externalId: string)

  /** A new delivery row: pending, blank texts. */
  const NewDelivery: Delivery := Delivery(Pending, None, "", "")

  /** mark_as_sent at time `now`; an empty or absent id keeps the old one. */
  function MarkedSent(d: Delivery, externalId: Option<string>, now: int): (e: Delivery)
    ensures e.status == Sent && e.sentAt == Some(now) && e.errorMessage == d.errorMessage
    ensures e.externalId == (if externalId.Some? && externalId.value != "" then externalId.value
                             else d.externalId)
  {
    Delivery(Sent, Some(now),  d.errorMessage,
             if externalId.Some? && externalId.value != "" then externalId.value else d.externalId)
  }

  /** mark_as_failed; an empty or absent message keeps the old one. */
  function MarkedFailed(d: Delivery, errorMessage: Option<string>): (e: Delivery)
    ensures e.status == Failed && e.sentAt == d.sentAt && e.externalId == d.externalId
    ensures e.errorMessage == (if errorMessage.Some? && errorMessage.value != "" then errorMessage.value
                               else d.errorMessage)
  {
    d.(status := Failed,
       errorMessage := if errorMessage.Some? && errorMessage.value != "" then errorMessage.value
                       else d.errorMessage)
  }

  class NotificationDelivery {
    var delivery: Delivery

    constructor ()
      ensures delivery == NewDelivery
    {
      delivery := NewDelivery;
    }

    method MarkAsSent(externalId: Option<string>, now: int)
      modifies this
      ensures delivery == MarkedSent(old(delivery), externalId, now)
    {
      var id := delivery.externalId;
      if externalId.Some? && externalId.value != "" {
        id := externalId.value;
      }
      delivery := Delivery(Sent, Some(now), delivery.errorMessage, id);
    }

    method MarkAsFailed(errorMessage: Option<string>)
      modifies this
      ensures delivery == MarkedFailed(old(delivery), errorMessage)
    {
      delivery := delivery.(status := Failed);
      if errorMessage.Some? && errorMessage.value != "" {
        delivery := delivery.(errorMessage := errorMessage.value);
      }
    }
  }
}
