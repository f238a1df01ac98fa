/** What may happen to the power levels of a room, entry by entry. */
module PowerChanges {
  import opened Options
  import opened AuthEvents
  import opened AuthRules

  /** Wherever two maps differ, neither has an entry above `level`. */
  ghost predicate DiffersUpTo<K(!new)>(level: int, was: map<K, int>, is_: map<K, int>) {
    && (forall k <- was | k !in is_ || is_[k] != was[k] :: was[k] <= level)
    && (forall k <- is_ | k !in was || was[k] != is_[k] :: is_[k] <= level)
  }

  /** Wherever two maps differ, the old entry is below `level`, one key set apart. */
  ghost predicate TakesFromBelow(level: int, was: map<string, int>, is_: map<string, int>, own: string) {
    forall k <- was | k != own && (k !in is_ || is_[k] != was[k]) :: was[k] < level
  }

  /** A sender at a level may turn power levels into others exactly if they differ only in entries that
      were, and will be, no higher than that, and among the users nobody else was that high. */
  lemma ChangesExactly(was: PowerContent, is_: PowerContent, sender: string, level: int, notifications: bool)
    ensures LevelChangesAllowed(was, is_, sender, level, notifications)
       <==> && DiffersUpTo(level, was.named, is_.named) && DiffersUpTo(level, was.events, is_.events)
            && DiffersUpTo(level, was.users, is_.users) && TakesFromBelow(level, was.users, is_.users, sender)
            && (notifications ==> DiffersUpTo(level, was.notifications, is_.notifications))
  {
    ScalarsExactly(was.named, is_.named, level);
    EntriesExactly(was.events, is_.events, level);
    EntriesExactly(was.notifications, is_.notifications, level);
    UsersExactly(was.users, is_.users, level, sender);
    hide ChangeOk, DiffersUpTo, TakesFromBelow;
  }

  lemma ScalarsExactly(was: map<LevelName, int>, is_: map<LevelName, int>, level: int)
    ensures (forall n: LevelName :: ChangeOk(Get(was, n), Get(is_, n), level, false)) <==> DiffersUpTo(level, was, is_)
  {
    EntriesExactly(was, is_, level);
    assert forall n: LevelName | n !in was.Keys + is_.Keys :: ChangeOk(Get(was, n), Get(is_, n), level, false);
  }

  lemma EntriesExactly<K(!new)>(was: map<K, int>, is_: map<K, int>, level: int)
    ensures (forall k <- was.Keys + is_.Keys :: ChangeOk(Get(was, k), Get(is_, k), level, false))
       <==> DiffersUpTo(level, was, is_)
  {
    if forall k <- was.Keys + is_.Keys :: ChangeOk(Get(was, k), Get(is_, k), level, false) {
      forall k <- was | k !in is_ || is_[k] != was[k] ensures was[k] <= level {
        assert k in was.Keys + is_.Keys && ChangeOk(Get(was, k), Get(is_, k), level, false);
      }
      forall k <- is_ | k !in was || was[k] != is_[k] ensures is_[k] <= level {
        assert k in was.Keys + is_.Keys && ChangeOk(Get(was, k), Get(is_, k), level, false);
      }
    }
  }

  lemma UsersExactly(was: map<string, int>, is_: map<string, int>, level: int, sender: string)
    ensures (forall u <- was.Keys + is_.Keys :: ChangeOk(Get(was, u), Get(is_, u), level, u != sender))
       <==> DiffersUpTo(level, was, is_) && TakesFromBelow(level, was, is_, sender)
  {
    if forall u <- was.Keys + is_.Keys :: ChangeOk(Get(was, u), Get(is_, u), level, u != sender) {
      forall u <- was.Keys + is_.Keys ensures ChangeOk(Get(was, u), Get(is_, u), level, false) {
        assert ChangeOk(Get(was, u), Get(is_, u), level, u != sender);
      }
      forall u <- was | u != sender && (u !in is_ || is_[u] != was[u]) ensures was[u] < level {
        assert u in was.Keys + is_.Keys && ChangeOk(Get(was, u), Get(is_, u), level, true);
      }
    }
    EntriesExactly(was, is_, level);
    if DiffersUpTo(level, was, is_) && TakesFromBelow(level, was, is_, sender) {
      forall u <- was.Keys + is_.Keys ensures ChangeOk(Get(was, u), Get(is_, u), level, u != sender) {
        assert ChangeOk(Get(was, u), Get(is_, u), level, false);
      }
    }
  }
}
