/** A cache whose items expire: every addition starts its own timer, and a timer deletes
    its key no matter whether the key was added again in the meantime. */
module ExpiringCache {
  type Time = int
  datatype Addition = Addition(key: string, at: Time)

  /** Position i is where the key was added last. */
  predicate LatestAt(adds: seq<Addition>, key: string, i: nat) {
    && i < |adds| && adds[i].key == key
    && forall j :: i < j < |adds| ==> adds[j].key != key
  }

  /** The timer of addition j has fired after addition i and no later than now. */
  predicate FiredSince(adds: seq<Addition>, ttl: Time, now: Time, i: nat, j: nat)
    requires i < |adds| && j < |adds|
  {
    adds[i].at < adds[j].at + ttl <= now
  }

  /** The key was last added less than the lifetime ago, and no timer of an earlier
      addition of it has fired since. */
  ghost predicate Present(adds: seq<Addition>, ttl: Time, key: string, now: Time) {
    exists i: nat ::
      && LatestAt(adds, key, i)
      && now < adds[i].at + ttl
      && forall j: nat :: j < i && adds[j].key == key ==> !FiredSince(adds, ttl, now, i, j)
  }

  class Cache {
    const ttl: Time
    var items: map<string, Time>
    var timers: seq<Addition>   // Timers that have not fired, in the order of their start.
    var now: Time
    ghost var adds: seq<Addition>
    ghost var fired: nat

    /** Timers fire promptly and in order; an item is there iff the latest addition of its
        key came after every timer of that key that has fired. */
    ghost predicate Valid()
      reads this
    {
      && ttl > 0 && fired <= |adds| && timers == adds[fired..]
      && InOrder(adds, now) && FiredInTime(adds, ttl, now, fired) && ItemsStay(items, adds, ttl, fired)
    }

    /** Every timer that is due has fired. */
    ghost predicate Prompt()
      reads this
    {
      forall j :: fired <= j < |adds| ==> now < adds[j].at + ttl
    }

    constructor (ttl: Time, now: Time)
      requires ttl > 0
      ensures Valid() && Prompt() && this.ttl == ttl && this.now == now && adds == []
    {
      this.ttl, items, timers, this.now := ttl, map[], [], now;
      adds, fired := [], 0;
    }

    /** The timer that was started first fires. */
    method Fire()
      requires Valid() && timers != [] && timers[0].at + ttl <= now
      modifies `items, `timers, `fired
      ensures Valid() && timers == old(timers)[1..] && adds == old(adds) && items == old(items) - {old(timers)[0].key}
    {
      ghost var k := fired;
      var key := timers[0].key;
      items := items - {key};
      timers := timers[1..];
      fired := fired + 1;
      forall x ensures x in items <==> Stays(adds, ttl, fired, x) {
        FireSurvivors(adds, ttl, k, x);
      }
    }

    /** Time passes, and with it the timers that come due. */
    method AdvanceTo(t: Time)
      requires Valid() && now <= t
      modifies `items, `timers, `fired, `now
      ensures Valid() && Prompt() && now == t && adds == old(adds)
    {
      TimePasses(adds, ttl, now, t, fired);
      now := t;
      FireDue();
    }

    /** All timers that are due fire. */
    method FireDue()
      requires Valid()
      modifies `items, `timers, `fired
      ensures Valid() && Prompt() && adds == old(adds)
    {
      while timers != [] && timers[0].at + ttl <= now
        invariant Valid() && adds == old(adds)
        decreases |timers|
      {
        Fire();
      }
      NoneIsDue(adds, ttl, fired, now);
    }

    method Add(key: string)
      requires Valid() && Prompt()
      modifies this
      ensures Valid() && Prompt() && now == old(now) && adds == old(adds) + [Addition(key, now)]
      ensures items == old(items)[key := now]
    {
      items := items[key := now];
      timers := timers + [Addition(key, now)];
      ghost var before := adds;
      adds := adds + [Addition(key, now)];
      AddInTime(before, ttl, now, fired, Addition(key, now));
      forall x ensures x in items <==> Stays(adds, ttl, fired, x) {
        AddSurvivors(before, ttl, fired, Addition(key, now), x);
      }
    }

    method Exists(key: string) returns (found: bool)
      requires Valid() && Prompt()
      ensures found <==> Present(adds, ttl, key, now)
    {
      found := key in items;
      PresentIffSurvives(adds, ttl, fired, key, now);
    }

    method Count() returns (n: nat)
      requires Valid() && Prompt()
      ensures n == |PresentKeys(adds, ttl, now)| && n <= |RecentKeys(adds, ttl, now)|
    {
      n := |items|;
      forall key ensures key in items <==> key in PresentKeys(adds, ttl, now) {
        PresentIffSurvives(adds, ttl, fired, key, now);
        PresentIsAdded(adds, ttl, key, now);
      }
      assert items.Keys == PresentKeys(adds, ttl, now);
      forall key | key in PresentKeys(adds, ttl, now) ensures key in RecentKeys(adds, ttl, now) {
        PresentIsRecent(adds, ttl, key, now);
      }
      SubsetSize(PresentKeys(adds, ttl, now), RecentKeys(adds, ttl, now));
    }
  }

  predicate InOrder(adds: seq<Addition>, now: Time) {
    && (forall i, j :: 0 <= i < j < |adds| ==> adds[i].at <= adds[j].at)
    && (forall i :: 0 <= i < |adds| ==> adds[i].at <= now)
  }

  /** Every timer that fired was due, and none that has not was due when something was
      added. */
  predicate FiredInTime(adds: seq<Addition>, ttl: Time, now: Time, fired: nat)
    requires fired <= |adds|
  {
    && (forall j :: 0 <= j < fired ==> adds[j].at + ttl <= now)
    && (forall i, j :: fired <= i < |adds| && 0 <= j < |adds| ==> adds[j].at < adds[i].at + ttl)
  }

  ghost predicate ItemsStay(items: map<string, Time>, adds: seq<Addition>, ttl: Time, fired: nat) {
    forall key :: key in items <==> Stays(adds, ttl, fired, key)
  }

  /** The keys that were added less than the lifetime ago. */
  function RecentKeys(adds: seq<Addition>, ttl: Time, now: Time): set<string> {
    set i | 0 <= i < |adds| && now < adds[i].at + ttl :: adds[i].key
  }

  /** The keys that are present. */
  ghost function PresentKeys(adds: seq<Addition>, ttl: Time, now: Time): set<string> {
    set i | 0 <= i < |adds| && Present(adds, ttl, adds[i].key, now) :: adds[i].key
  }

  lemma PresentIsAdded(adds: seq<Addition>, ttl: Time, key: string, now: Time)
    ensures key in PresentKeys(adds, ttl, now) <==> Present(adds, ttl, key, now)
  {
    if Present(adds, ttl, key, now) {
      var i: nat :| LatestAt(adds, key, i);
      assert adds[i].key in PresentKeys(adds, ttl, now);
    }
  }

  lemma SubsetSize(a: set<string>, b: set<string>)
    requires a <= b
    ensures |a| <= |b|
  {
    assert b == a + (b - a);
  }

  /** Addition i is the latest of its key and came after all of the first `fired` timers
      of that key. */
  predicate Survives(adds: seq<Addition>, ttl: Time, fired: nat, key: string, i: nat) {
    && LatestAt(adds, key, i)
    && forall j: nat :: j < fired && j < |adds| && adds[j].key == key ==> adds[j].at + ttl <= adds[i].at
  }

  ghost predicate Stays(adds: seq<Addition>, ttl: Time, fired: nat, key: string) {
    exists i: nat :: Survives(adds, ttl, fired, key, i)
  }

  lemma TimePasses(adds: seq<Addition>, ttl: Time, now: Time, later: Time, fired: nat)
    requires fired <= |adds| && now <= later && InOrder(adds, now) && FiredInTime(adds, ttl, now, fired)
    ensures InOrder(adds, later) && FiredInTime(adds, ttl, later, fired)
  {
  }

  /** Timers fire in the order of their start, so it is enough that the first is not due. */
  lemma NoneIsDue(adds: seq<Addition>, ttl: Time, fired: nat, now: Time)
    requires fired <= |adds| && (adds[fired..] != [] ==> now < adds[fired..][0].at + ttl)
    requires forall i, j :: 0 <= i < j < |adds| ==> adds[i].at <= adds[j].at
    ensures forall j :: fired <= j < |adds| ==> now < adds[j].at + ttl
  {
    forall j | fired <= j < |adds| ensures now < adds[j].at + ttl {
      assert adds[fired..][0] == adds[fired];
    }
  }

  lemma FireSurvivors(adds: seq<Addition>, ttl: Time, k: nat, x: string)
    requires k < |adds|
    requires forall j :: 0 <= j < |adds| ==> adds[j].at < adds[k].at + ttl
    ensures Stays(adds, ttl, k + 1, x) <==> x != adds[k].key && Stays(adds, ttl, k, x)
  {
    var next := k + 1;
    forall i: nat ensures Survives(adds, ttl, next, x, i) <==> x != adds[k].key && Survives(adds, ttl, k, x, i) {
    }
  }

  lemma AddInTime(adds: seq<Addition>, ttl: Time, now: Time, fired: nat, a: Addition)
    requires fired <= |adds| && InOrder(adds, now) && FiredInTime(adds, ttl, now, fired) && a.at == now && ttl > 0
    requires forall j :: fired <= j < |adds| ==> now < adds[j].at + ttl
    ensures InOrder(adds + [a], now) && FiredInTime(adds + [a], ttl, now, fired)
    ensures forall j :: fired <= j < |adds + [a]| ==> now < (adds + [a])[j].at + ttl
  {
  }

  lemma AddSurvivors(adds: seq<Addition>, ttl: Time, fired: nat, a: Addition, x: string)
    requires fired <= |adds| && forall j :: 0 <= j < fired ==> adds[j].at + ttl <= a.at
    ensures Stays(adds + [a], ttl, fired, x) <==> x == a.key || Stays(adds, ttl, fired, x)
  {
    var more := adds + [a];
    if x == a.key {
      assert Survives(more, ttl, fired, x, |adds|);
    } else {
      forall i: nat ensures Survives(more, ttl, fired, x, i) <==> Survives(adds, ttl, fired, x, i) {
        SurvivesFrame(adds, ttl, fired, a, x, i);
      }
    }
  }

  lemma SurvivesFrame(adds: seq<Addition>, ttl: Time, fired: nat, a: Addition, x: string, i: nat)
    requires fired <= |adds| && x != a.key
    ensures Survives(adds + [a], ttl, fired, x, i) <==> Survives(adds, ttl, fired, x, i)
  {
    var more := adds + [a];
    assert forall j :: 0 <= j < |adds| ==> more[j] == adds[j];
    if Survives(more, ttl, fired, x, i) {
      forall j | i < j < |adds| ensures adds[j].key != x { assert more[j] == adds[j]; }
      forall j: nat | j < fired && j < |adds| && adds[j].key == x ensures adds[j].at + ttl <= adds[i].at {
        assert more[j] == adds[j];
      }
    }
  }

  /** With all due timers fired, surviving is being present. */
  lemma PresentIffSurvives(adds: seq<Addition>, ttl: Time, fired: nat, key: string, now: Time)
    requires ttl > 0 && fired <= |adds|
    requires forall j :: 0 <= j < fired ==> adds[j].at + ttl <= now
    requires forall j :: fired <= j < |adds| ==> now < adds[j].at + ttl
    ensures Present(adds, ttl, key, now) <==> Stays(adds, ttl, fired, key)
  {
    if i: nat :| Survives(adds, ttl, fired, key, i) {
      assert i >= fired;
      assert forall j: nat :: j < i && adds[j].key == key ==> !FiredSince(adds, ttl, now, i, j);
    }
    if Present(adds, ttl, key, now) {
      var i: nat :| LatestAt(adds, key, i) && now < adds[i].at + ttl
        && forall j: nat :: j < i && adds[j].key == key ==> !FiredSince(adds, ttl, now, i, j);
      forall j: nat | j < fired && j < |adds| && adds[j].key == key ensures adds[j].at + ttl <= adds[i].at {
        assert !FiredSince(adds, ttl, now, i, j);
      }
      assert Survives(adds, ttl, fired, key, i);
    }
  }

  /** Nothing outlives the lifetime of its latest addition. */
  lemma PresentIsRecent(adds: seq<Addition>, ttl: Time, key: string, now: Time)
    requires Present(adds, ttl, key, now)
    ensures key in RecentKeys(adds, ttl, now)
  {
    var i: nat :| LatestAt(adds, key, i) && now < adds[i].at + ttl;
  }

  /** Adding a key again does not extend its life: from the moment the timer of the earlier
      addition fires the key is gone, although its latest addition is not that old. */
  lemma ReAddingDoesNotExtend(key: string, a: Time, b: Time, ttl: Time, now: Time)
    requires a <= b < a + ttl <= now < b + ttl
    ensures !Present([Addition(key, a), Addition(key, b)], ttl, key, now)
    ensures Present([Addition(key, a), Addition(key, b)], ttl, key, a + ttl - 1)
  {
    var adds := [Addition(key, a), Addition(key, b)];
    assert FiredSince(adds, ttl, now, 1, 0);
    forall i: nat | LatestAt(adds, key, i) ensures i == 1 { assert adds[1].key == key; }
    assert LatestAt(adds, key, 1);
  }
}
