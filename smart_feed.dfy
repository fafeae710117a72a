/**
 * The unread-count bookkeeping of a smart feed: a pseudo-feed that aggregates
 * unread articles across every active account. It keeps one stored count per
 * account ID and a total, `unreadCount`, whose changes are announced with a
 * notification.
 *
 * The accounts the account manager reports as active are passed in as a
 * sequence of account IDs; the delegate's asynchronous per-account fetch
 * delivers its result through `ReceiveUnreadCount`.
 */
module SmartFeeds {
  import opened Wrappers

  type AccountID = string

  /** No account ID appears twice (accounts are distinct objects with distinct IDs). */
  predicate Distinct(ids: seq<AccountID>) {
    forall i, j :: 0 <= i < j < |ids| ==> ids[i] != ids[j]
  }

  /** What one account adds to the total: its stored count, or 0 when none is stored. */
  function Contribution(counts: map<AccountID, int>, id: AccountID): int {
    if id in counts then counts[id] else 0
  }

  /** The total over the active accounts, accumulated from the left as the `reduce(0)`
      in NetNewsWire's Swift code does. */
  function TotalUnread(active: seq<AccountID>, counts: map<AccountID, int>): int {
    if active == [] then 0
    else TotalUnread(active[..|active| - 1], counts) + Contribution(counts, active[|active| - 1])
  }

  /** Counts stored under IDs that are not active never reach the total: two maps that
      agree on every active account give the same total. */
  lemma {:induction false} InactiveCountsIgnored(active: seq<AccountID>, c1: map<AccountID, int>, c2: map<AccountID, int>)
    requires forall id :: id in active ==> Contribution(c1, id) == Contribution(c2, id)
    ensures TotalUnread(active, c1) == TotalUnread(active, c2)
  {
    if active != [] {
      var prefix := active[..|active| - 1];
      assert forall id :: id in prefix ==> id in active;
      InactiveCountsIgnored(prefix, c1, c2);
      assert active[|active| - 1] in active;
    }
  }

  /** Storing `v` for one account moves the total by the difference between `v` and
      what that account contributed before, when the account is active; otherwise
      the total does not move. */
  lemma {:induction false} StoreShiftsTotal(active: seq<AccountID>, counts: map<AccountID, int>, id: AccountID, v: int)
    requires Distinct(active)
    ensures TotalUnread(active, counts[id := v])
         == TotalUnread(active, counts) + (if id in active then v - Contribution(counts, id) else 0)
  {
    if active != [] {
      var prefix, last := active[..|active| - 1], active[|active| - 1];
      assert Distinct(prefix);
      StoreShiftsTotal(prefix, counts, id, v);
      assert id in active <==> id in prefix || id == last;
      assert id == last ==> id !in prefix;
    }
  }

  /** With non-negative stored counts the total is non-negative and no active account's
      count exceeds it. */
  lemma {:induction false} TotalBoundsEachAccount(active: seq<AccountID>, counts: map<AccountID, int>, id: AccountID)
    requires forall a :: a in counts ==> counts[a] >= 0
    ensures TotalUnread(active, counts) >= 0
    ensures id in active ==> Contribution(counts, id) <= TotalUnread(active, counts)
  {
    if active != [] {
      var prefix := active[..|active| - 1];
      TotalBoundsEachAccount(prefix, counts, id);
      assert id in active ==> id in prefix || id == active[|active| - 1];
    }
  }

  class SmartFeed {
    /** The total shown for the smart feed. */
    var unreadCount: int
    /** The last count received for each account, keyed by account ID. */
    var unreadCounts: map<AccountID, int>
    /** How many unread-count-did-change notifications this feed has posted. */
    var postedNotifications: nat

    /** Starts with no stored counts and a total of 0; the initial fetch is queued on a
        coalescing queue, which is not part of this model. */
    constructor ()
      ensures unreadCount == 0 && unreadCounts == map[] && postedNotifications == 0
    {
      unreadCount := 0;
      unreadCounts := map[];
      postedNotifications := 0;
    }

    /** Assigning `unreadCount`: its observer posts a notification exactly when the
        value changes. */
    method SetUnreadCount(value: int)
      modifies this`unreadCount, this`postedNotifications
      ensures unreadCount == value
      ensures postedNotifications == old(postedNotifications) + (if value != old(unreadCount) then 1 else 0)
    {
      var oldValue := unreadCount;
      unreadCount := value;
      if unreadCount != oldValue {
        postedNotifications := postedNotifications + 1;
      }
    }

    /** Recomputes the total from the stored counts of the active accounts; an active
        account with no stored count contributes 0. */
    method UpdateUnreadCount(active: seq<AccountID>)
      modifies this`unreadCount, this`postedNotifications
      ensures unreadCount == TotalUnread(active, unreadCounts)
      ensures postedNotifications == old(postedNotifications) + (if unreadCount != old(unreadCount) then 1 else 0)
    {
      SetUnreadCount(TotalUnread(active, unreadCounts));
    }

    /** Drops the stored counts of accounts that are no longer active. With no active
        account the total is recomputed (to 0) at once; otherwise one fetch per active
        account is started, and its result arrives later through `ReceiveUnreadCount`. */
    method FetchUnreadCounts(active: seq<AccountID>)
      modifies this`unreadCounts, this`unreadCount, this`postedNotifications
      ensures forall id :: id in unreadCounts <==> id in old(unreadCounts) && id in active
      ensures forall id :: id in unreadCounts ==> unreadCounts[id] == old(unreadCounts)[id]
      ensures TotalUnread(active, unreadCounts) == TotalUnread(active, old(unreadCounts))
      ensures active == [] ==> unreadCounts == map[] && unreadCount == 0
      ensures active != [] ==> unreadCount == old(unreadCount)
      ensures postedNotifications == old(postedNotifications) + (if unreadCount != old(unreadCount) then 1 else 0)
    {
      var keys := unreadCounts.Keys;
      while keys != {}
        invariant keys <= old(unreadCounts).Keys
        invariant forall id :: id in unreadCounts <==> id in old(unreadCounts) && (id in keys || id in active)
        invariant forall id :: id in unreadCounts ==> unreadCounts[id] == old(unreadCounts)[id]
        invariant unreadCount == old(unreadCount) && postedNotifications == old(postedNotifications)
        decreases keys
      {
        var id :| id in keys;
        if id !in active {
          unreadCounts := unreadCounts - {id};
        }
        keys := keys - {id};
      }
      InactiveCountsIgnored(active, unreadCounts, old(unreadCounts));
      if active == [] {
        UpdateUnreadCount(active);
      }
    }

    /** The callback of one account's fetch: a failed fetch is ignored; a count that
        arrives is stored under that account and the total is recomputed over the
        accounts that are active when it arrives. */
    method ReceiveUnreadCount(id: AccountID, result: Option<int>, active: seq<AccountID>)
      modifies this`unreadCounts, this`unreadCount, this`postedNotifications
      ensures result.None? ==> unreadCounts == old(unreadCounts) && unreadCount == old(unreadCount)
                               && postedNotifications == old(postedNotifications)
      ensures result.Some? ==> unreadCounts == old(unreadCounts)[id := result.value]
                               && unreadCount == TotalUnread(active, unreadCounts)
      ensures result.Some? && Distinct(active) && id in active && old(unreadCount) == TotalUnread(active, old(unreadCounts))
              ==> unreadCount == old(unreadCount) + result.value - Contribution(old(unreadCounts), id)
      ensures postedNotifications == old(postedNotifications) + (if unreadCount != old(unreadCount) then 1 else 0)
    {
      if result.None? {
        return;
      }
      unreadCounts := unreadCounts[id := result.value];
      UpdateUnreadCount(active);
      if Distinct(active) {
        StoreShiftsTotal(active, old(unreadCounts), id, result.value);
      }
    }
  }
}
