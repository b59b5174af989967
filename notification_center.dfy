/**
 * The notification centre: a list of toasts, a table from toast id to the
 * handle of its removal timer, and the browser's pending timers, with the
 * append, remove, timer-fire and unmount steps and the context guard.
 */
module NotificationCenter {
  import opened Wrappers
  import opened JsNumber

  datatype Kind = Info | Success | Error

  datatype Notification = Notification(id: real, kind: Kind, message: string)

  const ProviderMissing := "useNotifications must be used within a NotificationProvider"

  /** The removal delay used when the caller gives none, in milliseconds. */
  const DefaultTimeoutMs: real := 4000.0

  /** `useNotifications`: the provider's value, or the error thrown outside a provider. */
  function UseNotifications<C>(context: Option<C>): (r: Result<C>)
    ensures r.Ok? <==> context.Some?
    ensures r.Ok? ==> r.value == context.value
    ensures r.Err? ==> r.message == ProviderMissing
  {
    if context.None? then Err(ProviderMissing) else Ok(context.value)
  }

  /** Some toast in the list carries this id. */
  predicate HasId(items: seq<Notification>, id: real) {
    exists i :: 0 <= i < |items| && items[i].id == id
  }

  /** `current.filter(item => item.id !== id)` */
  function WithoutId(items: seq<Notification>, id: real): (r: seq<Notification>)
    ensures |r| <= |items|
    ensures forall n :: n in r <==> n in items && n.id != id
    ensures !HasId(r, id)
  {
    if items == [] then []
    else if items[0].id == id then WithoutId(items[1..], id)
    else [items[0]] + WithoutId(items[1..], id)
  }

  /** Removing an id no toast carries leaves the list as it was. */
  lemma {:induction false} WithoutAbsentId(items: seq<Notification>, id: real)
    requires !HasId(items, id)
    ensures WithoutId(items, id) == items
  {
    if items != [] {
      forall i | 0 <= i < |items[1..]|
        ensures items[1..][i].id != id
      {
        assert items[1..][i] == items[i + 1];
      }
      WithoutAbsentId(items[1..], id);
      assert items == [items[0]] + items[1..];
    }
  }

  /** The filter keeps the other toasts in order: it splits over concatenation. */
  lemma {:induction false} WithoutIdAppend(a: seq<Notification>, b: seq<Notification>, id: real)
    ensures WithoutId(a + b, id) == WithoutId(a, id) + WithoutId(b, id)
  {
    if a != [] {
      assert (a + b)[1..] == a[1..] + b;
      WithoutIdAppend(a[1..], b, id);
    } else {
      assert a + b == b;
    }
  }

  class Provider {
    /** The toasts on screen, oldest first. */
    var items: seq<Notification>
    /** `timers.current`: toast id to the handle of its removal timer. */
    var timers: map<real, nat>
    /** The browser's pending timeouts: handle to the toast id its callback removes. */
    var scheduled: map<nat, real>

    /**
     * Every timer entry belongs to a toast on screen and names a pending
     * timeout, with a non-zero handle, that removes that toast.
     */
    predicate Valid()
      reads this
    {
      forall id :: id in timers ==>
        HasId(items, id) && timers[id] > 0 && timers[id] in scheduled && scheduled[timers[id]] == id
    }

    constructor ()
      ensures Valid()
      ensures items == [] && timers == map[] && scheduled == map[]
    {
      items := [];
      timers := map[];
      scheduled := map[];
    }

    /**
     * `notify`: one toast appended with id `now + random`, kind `Info` unless
     * given; a removal timer with the fresh handle `handle` is registered iff
     * the timeout (4000 unless given) is positive.
     */
    method Notify(message: string, kind: Option<Kind>, timeoutMs: Option<Num>,
                  now: nat, random: real, handle: nat)
      requires Valid()
      requires 0.0 <= random < 1.0
      requires handle > 0 && handle !in scheduled
      modifies this
      ensures Valid()
      ensures var id := now as real + random;
              items == old(items) + [Notification(id, if kind.Some? then kind.value else Info, message)]
      ensures var id := now as real + random;
              var timeout := if timeoutMs.Some? then timeoutMs.value else Fin(DefaultTimeoutMs);
              if Less(Fin(0.0), timeout) then
                timers == old(timers)[id := handle] && scheduled == old(scheduled)[handle := id]
              else
                timers == old(timers) && scheduled == old(scheduled)
    {
      var id := now as real + random;
      var k := if kind.Some? then kind.value else Info;
      var timeout := if timeoutMs.Some? then timeoutMs.value else Fin(DefaultTimeoutMs);
      items := items + [Notification(id, k, message)];
      assert HasId(items, id) by {
        assert items[|items| - 1].id == id;
      }
      forall other | other in timers
        ensures HasId(items, other)
      {
        var i :| 0 <= i < |old(items)| && old(items)[i].id == other;
        assert items[i] == old(items)[i];
      }
      if Less(Fin(0.0), timeout) {
        timers := timers[id := handle];
        scheduled := scheduled[handle := id];
      }
    }

    /**
     * `remove`: every toast with that id leaves the list, and its timer, if
     * any, is cancelled and its entry deleted.
     */
    method Remove(id: real)
      requires Valid()
      modifies this
      ensures Valid()
      ensures items == WithoutId(old(items), id)
      ensures timers == old(timers) - {id} && id !in timers
      ensures id in old(timers) ==> scheduled == old(scheduled) - {old(timers)[id]}
      ensures id !in old(timers) ==> scheduled == old(scheduled)
      ensures !HasId(old(items), id) ==>
                items == old(items) && timers == old(timers) && scheduled == old(scheduled)
    {
      if !HasId(items, id) {
        WithoutAbsentId(items, id);
      }
      items := WithoutId(items, id);
      if id in timers && timers[id] != 0 {
        scheduled := scheduled - {timers[id]};
        timers := timers - {id};
      }
      forall other | other in timers
        ensures HasId(items, other)
      {
        var i :| 0 <= i < |old(items)| && old(items)[i].id == other;
        assert old(items)[i] in items;
      }
    }

    /** The browser runs a pending timeout: it is no longer pending, and its callback removes its toast. */
    method FireTimer(handle: nat)
      requires Valid() && handle in scheduled
      modifies this
      ensures Valid()
      ensures items == WithoutId(old(items), old(scheduled)[handle])
      ensures handle !in scheduled
      ensures old(scheduled)[handle] !in timers
      ensures timers == old(timers) - {old(scheduled)[handle]}
      ensures var id := old(scheduled)[handle];
              scheduled == old(scheduled) - {handle} - (if id in old(timers) then {old(timers)[id]} else {})
    {
      var id := scheduled[handle];
      Remove(id);
      forall other | other in timers
        ensures timers[other] != handle
      {
        assert scheduled[timers[other]] == other;
      }
      scheduled := scheduled - {handle};
    }

    /** The unmount cleanup: every registered timer is cancelled and the table emptied. */
    method Unmount()
      modifies this
      ensures timers == map[]
      ensures scheduled == old(scheduled) - old(timers).Values
      ensures items == old(items)
      ensures Valid()
    {
      var handles := timers.Values;
      while handles != {}
        invariant handles <= old(timers).Values
        invariant scheduled == old(scheduled) - (old(timers).Values - handles)
        invariant items == old(items) && timers == old(timers)
        decreases handles
      {
        var h :| h in handles;
        scheduled := scheduled - {h};
        handles := handles - {h};
      }
      timers := map[];
    }
  }
}
