/** What users get to see, told from what the server stores alone, for both filters. */
module VisibilityMeaning {
  import opened Options
  import opened Visibility
  import Auth = AuthEvents

  /** What a visibility opens to everyone: world-readable rooms, and to those who do not peek also rooms
      that are shared, say nothing or say something unknown. */
  predicate OpenUnder(said: Option<HistoryVisibility>, peeking: bool) {
    said == Some(WorldReadable) || (!peeking && said != Some(Invited) && said != Some(JoinedOnly))
  }

  /** What the state after an event says on visibility. */
  function Said(s: State): Option<HistoryVisibility> {
    if VISIBILITY_KEY in s then s[VISIBILITY_KEY].visibility else None
  }

  /** An event is open by itself if the visibility after it is open or, for a change of visibility, the
      one before. */
  predicate OpenByVisibility(e: Event, s: State, peeking: bool) {
    OpenUnder(Said(s), peeking) || (e.kind.HistoryVisibilityType? && OpenUnder(e.prevVisibility, peeking))
  }

  predicate OpenTo(m: Option<Membership>, s: State, peeking: bool) {
    OpenUnder(Said(s), peeking) || m == Some(Auth.Join) || (m == Some(Auth.Invite) && Said(s) == Some(Invited))
  }

  /** A user's membership after an event opens it; for the user's own membership event, the one before
      does too, as does leaving by it from the room or from an invite. */
  predicate OpenByMembership(user: string, e: Event, s: State, peeking: bool) {
    if e.kind.Member? && e.stateKey == Some(user) then
      || OpenTo(Some(e.membership), s, peeking) || OpenTo(e.prevMembership, s, peeking)
      || (e.membership !in {Auth.Join, Auth.Invite, Auth.Knock, Auth.Ban}
          && e.prevMembership in {Some(Auth.Join), Some(Auth.Invite)})
    else if (Member, user) in s then OpenTo(Some(s[(Member, user)].membership), s, peeking)
    else OpenTo(None, s, peeking)
  }

  lemma VisibilityOpens(e: Event, s: State, peeking: bool)
    ensures IsLax(e, EffectiveVisibility(s), peeking) <==> OpenByVisibility(e, s, peeking)
  {
    LaxUnderOldOrNew(e, EffectiveVisibility(s), peeking);
    hide IsLax;
  }

  lemma MembershipOpens(user: string, e: Event, s: State, peeking: bool)
    ensures CheckMembership(user, e, EffectiveVisibility(s), s, peeking).allowed
       <==> OpenByMembership(user, e, s, peeking)
  {
    AllowedByOldOrNew(user, e, EffectiveVisibility(s), s, peeking);
    hide CheckMembership;
  }

  /** One user, many events. An event of the list is shown exactly if: it was not soft-failed, or the user
      asked for such events; it is of a kind that is sent; as no state event can be, it is neither from
      a sender the user ignores nor past the room's lifetime; it would not ring a public room while the
      list has call invites; and it is asked for, or open, an erased sender's by membership only. */
  lemma ListShowsExactly(w: World, user: string, events: seq<Event>, e: Event, always: set<string>, peeking: bool,
      s: State)
    requires e in events && !e.outlier && StateOf(w, e) == Some(s)
    requires var kept := Kept(events, user in w.wantsSoftFailed, user in w.wantsSpammy);
      Replies(w, user, kept, always, peeking, HasCallInvite(events)).Some?
    ensures var kept := Kept(events, user in w.wantsSoftFailed, user in w.wantsSpammy);
      (exists c <- Replies(w, user, kept, always, peeking, HasCallInvite(events)).value :: c.e == e)
      <==> && (!e.softFailed || user in w.wantsSoftFailed || (user in w.wantsSpammy && e.spammy))
           && !e.kind.Dummy? && !e.kind.Aliases?
           && (e.stateKey.None? ==> (user, e.sender) !in w.ignores)
           && (e.stateKey.None? && e.roomId in w.lifetimes ==> w.now - e.ts <= w.lifetimes[e.roomId])
           && !(&& e.kind.CallInvite? && e.stateKey.None?
                && JOIN_RULES_KEY in s && s[JOIN_RULES_KEY].joinRule == Some(Auth.PublicRule)
                && exists x <- events :: x.kind.CallInvite? && x.stateKey.None? && !x.softFailed)
           && (|| e.id in always
               || (e.sender !in w.erased && OpenByVisibility(e, s, peeking))
               || OpenByMembership(user, e, s, peeking))
  {
    var all, spammy, calls := user in w.wantsSoftFailed, user in w.wantsSpammy, HasCallInvite(events);
    ShownByReply(w, user, events, e, always, peeking);
    InKept(events, all, spammy, e);
    ReplyExactly(w, user, e, always, peeking, calls, s);
    hide ReplyFor, Kept, Replies, OpenByVisibility, OpenByMembership;
  }

  /** Being shown is having a reply that shows. */
  lemma ShownByReply(w: World, user: string, events: seq<Event>, e: Event, always: set<string>, peeking: bool)
    requires var kept := Kept(events, user in w.wantsSoftFailed, user in w.wantsSpammy);
      Replies(w, user, kept, always, peeking, HasCallInvite(events)).Some?
    ensures var kept := Kept(events, user in w.wantsSoftFailed, user in w.wantsSpammy);
      (exists c <- Replies(w, user, kept, always, peeking, HasCallInvite(events)).value :: c.e == e)
      <==> e in kept && ReplyFor(w, user, e, always, peeking, HasCallInvite(events)).Show?
  {
    var calls := HasCallInvite(events);
    var kept := Kept(events, user in w.wantsSoftFailed, user in w.wantsSpammy);
    hide ReplyFor, Kept, Replies, HasCallInvite;
    forall c: ClientEvent
      ensures c in Replies(w, user, kept, always, peeking, calls).value
         <==> exists x <- kept :: ReplyFor(w, user, x, always, peeking, calls) == Show(c)
    {
      ShownExactly(w, user, kept, always, peeking, calls, c);
    }
    forall x | x in kept && ReplyFor(w, user, x, always, peeking, calls).Show?
      ensures ReplyFor(w, user, x, always, peeking, calls).shown.e == x
    {
      PrunedExactly(w, user, x, always, peeking, calls);
    }
    if e in kept && ReplyFor(w, user, e, always, peeking, calls).Show? {
      assert ReplyFor(w, user, e, always, peeking, calls) == Show(ReplyFor(w, user, e, always, peeking, calls).shown);
    }
  }

  lemma ReplyExactly(w: World, user: string, e: Event, always: set<string>, peeking: bool, calls: bool, s: State)
    requires !e.outlier && StateOf(w, e) == Some(s)
    ensures !ReplyFor(w, user, e, always, peeking, calls).Failed?
    ensures ReplyFor(w, user, e, always, peeking, calls).Show?
       <==> && !e.kind.Dummy? && !e.kind.Aliases?
            && (e.stateKey.None? ==> (user, e.sender) !in w.ignores)
            && (e.stateKey.None? && e.roomId in w.lifetimes ==> w.now - e.ts <= w.lifetimes[e.roomId])
            && !(&& e.kind.CallInvite? && e.stateKey.None? && calls
                 && JOIN_RULES_KEY in s && s[JOIN_RULES_KEY].joinRule == Some(Auth.PublicRule))
            && (|| e.id in always
                || (e.sender !in w.erased && OpenByVisibility(e, s, peeking))
                || OpenByMembership(user, e, s, peeking))
  {
    var f := if calls then s else s - {JOIN_RULES_KEY};
    VisibilityOpens(e, s, peeking);
    MembershipOpens(user, e, s, peeking);
    assert EffectiveVisibility(f) == EffectiveVisibility(s);
    assert CheckMembership(user, e, EffectiveVisibility(f), f, peeking)
        == CheckMembership(user, e, EffectiveVisibility(s), s, peeking);
    hide EffectiveVisibility, CheckMembership, IsLax, OpenByVisibility, OpenByMembership;
  }

  /** The user was in the room at an event: by their membership after it or, for a change of that which is
      not a leave, also before it. */
  predicate WasJoined(user: string, e: Event, s: State) {
    if e.kind.Member? && e.stateKey == Some(user) then
      || e.membership == Auth.Join
      || (e.prevMembership == Some(Auth.Join) && e.membership in {Auth.Invite, Auth.Knock, Auth.Ban})
    else (Member, user) in s && s[(Member, user)].membership == Auth.Join
  }

  /** An event is shown without its content exactly if its sender is erased, the user was not in the room
      at it, and it was not asked for. */
  lemma PrunedForOutsiders(w: World, user: string, e: Event, always: set<string>, peeking: bool, calls: bool, s: State)
    requires !e.outlier && StateOf(w, e) == Some(s)
    requires ReplyFor(w, user, e, always, peeking, calls).Show?
    ensures ReplyFor(w, user, e, always, peeking, calls).shown.pruned
       <==> e.id !in always && e.sender in w.erased && !WasJoined(user, e, s)
  {
    PrunedExactly(w, user, e, always, peeking, calls);
    hide ReplyFor;
  }

  /** One event, many users: a user is in the result exactly if the event was not soft-failed, it passes the
      same rules for sending, and it is open by visibility or by membership; an event out of line with the
      room's history only if it is the user's own. */
  lemma BulkHoldsExactly(w: World, user: string, e: Event, prev: State, peeking: bool, sending: bool, s: State)
    requires s == if e.stateKey.Some? then prev[(e.kind, e.stateKey.value) := e] else prev
    ensures InBulk(w, user, e, prev, peeking, sending)
       <==> && !e.softFailed
            && (sending ==>
                  && !e.kind.Dummy? && !e.kind.Aliases?
                  && (e.stateKey.None? ==> (user, e.sender) !in w.ignores)
                  && (e.stateKey.None? && e.roomId in w.lifetimes ==> w.now - e.ts <= w.lifetimes[e.roomId]))
            && if e.outlier then e.kind.Member? && e.stateKey == Some(user)
               else OpenByVisibility(e, s, peeking) || OpenByMembership(user, e, s, peeking)
  {
    VisibilityOpens(e, s, peeking);
    MembershipOpens(user, e, s, peeking);
    hide EffectiveVisibility, CheckMembership, IsLax, OpenByVisibility, OpenByMembership;
  }

  /** In a list, outliers are shown to the users whose membership they are. */
  lemma OutliersAreOwn(w: World, user: string, e: Event, always: set<string>, peeking: bool, calls: bool)
    requires e.outlier && e.id !in always && (e.kind.Member? ==> e.stateKey.Some?)
    ensures !ReplyFor(w, user, e, always, peeking, calls).Failed?
    ensures ReplyFor(w, user, e, always, peeking, calls).Show? <==> e.kind.Member? && e.stateKey == Some(user)
  {
  }

  /** A list is answered, and not failed, if the store has the state of all its events but outliers, and
      none of these is asked for. */
  lemma {:induction false} ListIsAnswered(w: World, user: string, events: seq<Event>, always: set<string>,
      peeking: bool, calls: bool)
    requires forall e <- events :: if e.outlier then e.id !in always && WellFormed(e) else e.id in w.states
    ensures Replies(w, user, events, always, peeking, calls).Some?
  {
    hide ReplyFor;
    if events != [] {
      var before, last := events[..|events| - 1], events[|events| - 1];
      assert events == before + [last];
      ListIsAnswered(w, user, before, always, peeking, calls);
      if last.outlier {
        OutliersAreOwn(w, user, last, always, peeking, calls);
      } else {
        ReplyExactly(w, user, last, always, peeking, calls, w.states[last.id]);
      }
    }
  }
}
