/**
 * Invite snapshots and invite attribution: which invite a new member used,
 * found by comparing the snapshot cached before the join with the one
 * fetched after it.
 */
module Invites {
  import opened Wrappers
  import opened Platform

  type Code = string

  /** One active invite: its code, how often it has been used, and the tag of its inviter if it has one. */
  datatype Invite = Invite(code: Code, uses: nat, inviter: Option<string>)

  /** A fetched invite list, in the platform's order. */
  type Snapshot = seq<Invite>

  /** The invite a snapshot holds under `code` (the first one, should a code repeat). */
  function Find(s: Snapshot, code: Code): (r: Option<Invite>)
    ensures r.Some? ==> r.value in s && r.value.code == code
    ensures r.None? <==> forall i :: 0 <= i < |s| ==> s[i].code != code
  {
    if s == [] then None
    else if s[0].code == code then Some(s[0])
    else Find(s[1..], code)
  }

  /**
   * The test applied to each fetched invite: the cached snapshot holds the same
   * code with strictly fewer uses. A code the cache lacks reads as `undefined`,
   * and `undefined < n` is false, so such an invite never passes.
   */
  predicate Increased(cached: Snapshot, inv: Invite) {
    var was := Find(cached, inv.code);
    was.Some? && was.value.uses < inv.uses
  }

  /** The index of the first invite at or after `k` in `fetched` that passes the test. */
  function FirstIncreasedFrom(cached: Snapshot, fetched: Snapshot, k: nat): (r: Option<nat>)
    requires k <= |fetched|
    decreases |fetched| - k
    ensures r.Some? ==> k <= r.value < |fetched| && Increased(cached, fetched[r.value])
    ensures r.Some? ==> forall j :: k <= j < r.value ==> !Increased(cached, fetched[j])
    ensures r.None? ==> forall j :: k <= j < |fetched| ==> !Increased(cached, fetched[j])
  {
    if k == |fetched| then None
    else if Increased(cached, fetched[k]) then Some(k)
    else FirstIncreasedFrom(cached, fetched, k + 1)
  }

  /**
   * The `find` over the fetched list. With no cached snapshot at all, the
   * predicate throws on its first call, which happens exactly when the fetched
   * list is non-empty.
   */
  function Attribute(cached: Option<Snapshot>, fetched: Snapshot): (r: Result<Option<Invite>, Fault>)
    ensures r.Err? <==> cached.None? && fetched != []
    ensures r.Err? ==> r.error == CacheMissing
    ensures cached.None? && fetched == [] ==> r == Ok(None)
    ensures r.Ok? && r.value.Some? ==>
              cached.Some? &&
              exists i :: 0 <= i < |fetched| && fetched[i] == r.value.value &&
                          Increased(cached.value, fetched[i]) &&
                          forall j :: 0 <= j < i ==> !Increased(cached.value, fetched[j])
    ensures cached.Some? && r == Ok(None) <==>
              cached.Some? && forall i :: 0 <= i < |fetched| ==> !Increased(cached.value, fetched[i])
  {
    match cached
    case None => if fetched == [] then Ok(None) else Err(CacheMissing)
    case Some(c) =>
      match FirstIncreasedFrom(c, fetched, 0)
      case None => Ok(None)
      case Some(i) => Ok(Some(fetched[i]))
  }

  /** The first fetched invite that passes the test is the one attributed. */
  lemma AttributeFirstIncreased(cached: Snapshot, fetched: Snapshot, i: nat)
    requires i < |fetched| && Increased(cached, fetched[i])
    requires forall j :: 0 <= j < i ==> !Increased(cached, fetched[j])
    ensures Attribute(Some(cached), fetched) == Ok(Some(fetched[i]))
  {
  }

  /** When exactly one invite shows more uses than cached, the join is attributed to it. */
  lemma AttributeSingleIncrease(cached: Snapshot, fetched: Snapshot, i: nat)
    requires i < |fetched| && Increased(cached, fetched[i])
    requires forall j :: 0 <= j < |fetched| && j != i ==> !Increased(cached, fetched[j])
    ensures Attribute(Some(cached), fetched) == Ok(Some(fetched[i]))
  {
    AttributeFirstIncreased(cached, fetched, i);
  }

  /** An invite whose code is not in the cached snapshot is never attributed, whatever its use count. */
  lemma AbsentCodeNeverAttributed(cached: Snapshot, fetched: Snapshot, inv: Invite)
    requires forall i :: 0 <= i < |cached| ==> cached[i].code != inv.code
    ensures Attribute(Some(cached), fetched) != Ok(Some(inv))
  {
  }

  /** If no invite gained uses over its cached count, nothing is attributed. */
  lemma NoIncreaseNoAttribution(cached: Snapshot, fetched: Snapshot)
    requires forall i :: 0 <= i < |fetched| ==>
               forall c :: c in cached && c.code == fetched[i].code ==> fetched[i].uses <= c.uses
    ensures Attribute(Some(cached), fetched) == Ok(None)
  {
    forall i | 0 <= i < |fetched| ensures !Increased(cached, fetched[i]) {
      var f := Find(cached, fetched[i].code);
      if f.Some? {
        assert f.value in cached && f.value.code == fetched[i].code;
      }
    }
  }
}
