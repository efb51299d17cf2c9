/** The user store (`UserHandler.add_user`): user documents upserted by `user_id`. */
module Users {
  import opened Wrappers
  import opened Json
  import Keyed

  /** A stored user's key: its `user_id` value, if any. */
  function UserIdOf(d: Doc): Option<Value> { Get(d, "user_id") }

  /** The document `add_user` stores: the input with `taste_groups` reset to `{}`. */
  function StoredUser(userData: Doc): (r: Doc)
    ensures Get(r, "taste_groups") == Some(Obj([]))
    ensures forall k :: k != "taste_groups" ==> Get(r, k) == Get(userData, k)
  {
    Put(userData, "taste_groups", Obj([]))
  }

  /** Replacing a user by one that has a `user_id` keeps every stored user's `user_id`. */
  lemma ReplaceKeepsIds(users: seq<Doc>, stored: Doc)
    requires forall i :: 0 <= i < |users| ==> Has(users[i], "user_id")
    requires Has(stored, "user_id")
    ensures var after := Keyed.Replace(users, UserIdOf, stored);
            forall j :: 0 <= j < |after| ==> Has(after[j], "user_id")
  {
    var i := Keyed.FirstWithKey(users, UserIdOf, UserIdOf(stored));
    var kept := Keyed.DeleteFirstWithKey(users, UserIdOf, UserIdOf(stored));
    forall j | 0 <= j < |kept| ensures Has(kept[j], "user_id") {
      if i >= 0 && j >= i {
        assert kept[j] == users[j + 1];
      } else {
        assert kept[j] == users[j];
      }
    }
    var after := kept + [stored];
    forall j | 0 <= j < |after| ensures Has(after[j], "user_id") {
      if j < |kept| {
        assert after[j] == kept[j];
      }
    }
  }

  class UserHandler {
    /** The `users` collection. */
    var users: seq<Doc>

    /** Every stored user has a `user_id`, and no two share one. */
    predicate Valid()
      reads this
    {
      Keyed.UniqueKeys(users, UserIdOf) && forall i :: 0 <= i < |users| ==> Has(users[i], "user_id")
    }

    constructor ()
      ensures users == [] && Valid()
    {
      users := [];
    }

    /**
     * `add_user`: a document without `user_id` raises before anything is written;
     * otherwise the user with that id is replaced by the stamped document.
     */
    method AddUser(userData: Doc) returns (r: Result<Doc>)
      requires Valid()
      modifies this
      ensures r.Err? <==> !Has(userData, "user_id")
      ensures r.Err? ==> users == old(users)
      ensures r.Ok? ==> r.value == StoredUser(userData) && users == Keyed.Replace(old(users), UserIdOf, r.value)
      ensures r.Ok? ==> Keyed.WithKey(users, UserIdOf, UserIdOf(r.value)) == [r.value]
      ensures Valid()
    {
      if !Has(userData, "user_id") {
        return Err("KeyError: 'user_id'");
      }
      var stored := StoredUser(userData);
      Keyed.UniqueKeysWithKey(users, UserIdOf, UserIdOf(stored));
      Keyed.ReplaceSpec(users, UserIdOf, stored, UserIdOf(stored));
      Keyed.ReplaceKeepsUnique(users, UserIdOf, stored);
      ReplaceKeepsIds(users, stored);
      users := Keyed.Replace(users, UserIdOf, stored);
      r := Ok(stored);
    }
  }
}

/**
 * The trip store (`TripHandler`) and its invite state machine: members approve pending
 * invitees into the trip or deny them.
 */
module Trips {
  import opened Json
  import Keyed

  /** A stored trip: its id, members, pending invitees and the rest of the document. */
  datatype Trip = Trip(tripId: string, userIds: seq<string>, pendingInvites: seq<string>, rest: Doc)

  function TripIdOf(t: Trip): string { t.tripId }

  /** What an invite operation returns: `{"message": …}`, `{"error": …}` or a list. */
  datatype Response = Message(text: string) | Error(text: string) | Invites(pending: seq<string>) | Members(members: seq<string>)

  predicate NoDuplicates(xs: seq<string>)
  {
    forall i, j :: 0 <= i < j < |xs| ==> xs[i] != xs[j]
  }

  /** The invite invariant: pending invitees are distinct and none of them is a member. */
  predicate InvitesOk(t: Trip)
  {
    NoDuplicates(t.pendingInvites) && forall u :: u in t.pendingInvites ==> u !in t.userIds
  }

  /** Mongo's `$pull`: every occurrence of `x` goes, the rest keep their order. */
  function Pull(xs: seq<string>, x: string): (r: seq<string>)
    ensures forall y :: y in r <==> y in xs && y != x
    ensures |r| <= |xs|
  {
    if |xs| == 0 then [] else (if xs[0] == x then [] else [xs[0]]) + Pull(xs[1..], x)
  }

  lemma {:induction false} PullNoDuplicates(xs: seq<string>, x: string)
    requires NoDuplicates(xs)
    ensures NoDuplicates(Pull(xs, x))
  {
    if |xs| > 0 {
      PullNoDuplicates(xs[1..], x);
      var tail := Pull(xs[1..], x);
      if xs[0] != x {
        assert xs[0] !in tail;
        var r := [xs[0]] + tail;
        forall i, j | 0 <= i < j < |r| ensures r[i] != r[j] {
          if i == 0 {
            assert r[j] in tail;
          }
        }
      }
    }
  }

  /** The outcome and the new store of an operation that may change the first trip with an id. */
  type Step = (Response, seq<Trip>)

  const NotFound := Error("Trip not found")

  /** `add_invite`. */
  function AddInviteOn(trips: seq<Trip>, tripId: string, userId: string): Step
  {
    var i := Keyed.FirstWithKey(trips, TripIdOf, tripId);
    if i < 0 then (NotFound, trips)
    else if userId in trips[i].pendingInvites then (Message("User already invited"), trips)
    else if userId in trips[i].userIds then (Message("User already part of the trip"), trips)
    else (Message("User invited successfully"), trips[i := trips[i].(pendingInvites := trips[i].pendingInvites + [userId])])
  }

  /** The checks `approve_invite` and `deny_invite` share: trip found, approver a member, invitee pending. */
  function CheckApproval(trips: seq<Trip>, tripId: string, approverId: string, inviteeId: string): Response
  {
    var i := Keyed.FirstWithKey(trips, TripIdOf, tripId);
    if i < 0 then NotFound
    else if approverId !in trips[i].userIds then Error("Approver is not part of the trip")
    else if inviteeId !in trips[i].pendingInvites then Error("Invitee not in pending invites")
    else Message("")
  }

  /** `approve_invite`: `$pull` from pending and `$push` onto the members. */
  function ApproveInviteOn(trips: seq<Trip>, tripId: string, approverId: string, inviteeId: string): Step
  {
    var check := CheckApproval(trips, tripId, approverId, inviteeId);
    if check.Error? then (check, trips)
    else
      var i := Keyed.FirstWithKey(trips, TripIdOf, tripId);
      var t := trips[i];
      (Message("Invite approved successfully"),
       trips[i := t.(pendingInvites := Pull(t.pendingInvites, inviteeId), userIds := t.userIds + [inviteeId])])
  }

  /** `deny_invite`: only the `$pull` from pending. */
  function DenyInviteOn(trips: seq<Trip>, tripId: string, approverId: string, inviteeId: string): Step
  {
    var check := CheckApproval(trips, tripId, approverId, inviteeId);
    if check.Error? then (check, trips)
    else
      var i := Keyed.FirstWithKey(trips, TripIdOf, tripId);
      (Message("Invite denied successfully"), trips[i := trips[i].(pendingInvites := Pull(trips[i].pendingInvites, inviteeId))])
  }

  /** The first trip with the id, if any. */
  predicate Found(trips: seq<Trip>, tripId: string)
  {
    Keyed.FirstWithKey(trips, TripIdOf, tripId) >= 0
  }

  function TripOf(trips: seq<Trip>, tripId: string): Trip
    requires Found(trips, tripId)
  {
    trips[Keyed.FirstWithKey(trips, TripIdOf, tripId)]
  }

  /**
   * `add_invite` fails only on a missing trip, leaves the store alone when the user is
   * already pending or a member, and otherwise adds the user to the end of the trip's
   * pending list and changes nothing else.
   */
  lemma AddInviteSpec(trips: seq<Trip>, tripId: string, userId: string)
    ensures var (r, after) := AddInviteOn(trips, tripId, userId);
      && (r == NotFound <==> !Found(trips, tripId))
      && (r != Message("User invited successfully") ==> after == trips)
      && (Found(trips, tripId) && userId !in TripOf(trips, tripId).pendingInvites && userId !in TripOf(trips, tripId).userIds
          <==> r == Message("User invited successfully"))
      && |after| == |trips|
      && (r == Message("User invited successfully") ==>
            && Found(after, tripId)
            && TripOf(after, tripId) == TripOf(trips, tripId).(pendingInvites := TripOf(trips, tripId).pendingInvites + [userId])
            && forall j :: 0 <= j < |trips| && j != Keyed.FirstWithKey(trips, TripIdOf, tripId) ==> after[j] == trips[j])
  {
    var i := Keyed.FirstWithKey(trips, TripIdOf, tripId);
    if i >= 0 && userId !in trips[i].pendingInvites && userId !in trips[i].userIds {
      var after := AddInviteOn(trips, tripId, userId).1;
      assert forall j :: 0 <= j < |after| ==> TripIdOf(after[j]) == TripIdOf(trips[j]);
      assert Keyed.FirstWithKey(after, TripIdOf, tripId) == i;
    }
  }

  /**
   * An approval or denial fails, with nothing written, exactly when the trip is missing,
   * the approver is not a member or the invitee is not pending; the errors are checked in
   * that order.
   */
  lemma CheckApprovalSpec(trips: seq<Trip>, tripId: string, approverId: string, inviteeId: string)
    ensures var r := CheckApproval(trips, tripId, approverId, inviteeId);
      && (r.Error? <==> !Found(trips, tripId) || approverId !in TripOf(trips, tripId).userIds
                        || inviteeId !in TripOf(trips, tripId).pendingInvites)
      && (!Found(trips, tripId) ==> r == NotFound)
      && (Found(trips, tripId) && approverId !in TripOf(trips, tripId).userIds ==> r == Error("Approver is not part of the trip"))
      && (r.Error? ==> ApproveInviteOn(trips, tripId, approverId, inviteeId) == (r, trips))
      && (r.Error? ==> DenyInviteOn(trips, tripId, approverId, inviteeId) == (r, trips))
  {
  }

  /**
   * Approving moves the invitee out of pending and onto the end of the members. Every
   * other pending invitee stays, no other field of the trip changes and every other trip
   * is left alone.
   */
  lemma ApproveMove(trips: seq<Trip>, tripId: string, approverId: string, inviteeId: string)
    requires CheckApproval(trips, tripId, approverId, inviteeId).Message?
    ensures var after := ApproveInviteOn(trips, tripId, approverId, inviteeId).1;
      && |after| == |trips| && Found(after, tripId)
      && TripOf(after, tripId) == TripOf(trips, tripId).(pendingInvites := TripOf(after, tripId).pendingInvites,
                                                         userIds := TripOf(trips, tripId).userIds + [inviteeId])
      && inviteeId in TripOf(after, tripId).userIds && inviteeId !in TripOf(after, tripId).pendingInvites
      && (forall u :: u in TripOf(after, tripId).pendingInvites <==> u in TripOf(trips, tripId).pendingInvites && u != inviteeId)
      && forall j :: 0 <= j < |trips| && j != Keyed.FirstWithKey(trips, TripIdOf, tripId) ==> after[j] == trips[j]
  {
    var i := Keyed.FirstWithKey(trips, TripIdOf, tripId);
    var a := ApproveInviteOn(trips, tripId, approverId, inviteeId).1;
    assert forall j :: 0 <= j < |a| ==> TripIdOf(a[j]) == TripIdOf(trips[j]);
    assert Keyed.FirstWithKey(a, TripIdOf, tripId) == i;
  }

  /**
   * Denying only takes the invitee out of pending: every other pending invitee stays, the
   * members and every other field are kept and every other trip is left alone.
   */
  lemma DenyMove(trips: seq<Trip>, tripId: string, approverId: string, inviteeId: string)
    requires CheckApproval(trips, tripId, approverId, inviteeId).Message?
    ensures var after := DenyInviteOn(trips, tripId, approverId, inviteeId).1;
      && |after| == |trips| && Found(after, tripId)
      && TripOf(after, tripId) == TripOf(trips, tripId).(pendingInvites := TripOf(after, tripId).pendingInvites)
      && inviteeId !in TripOf(after, tripId).pendingInvites
      && (forall u :: u in TripOf(after, tripId).pendingInvites <==> u in TripOf(trips, tripId).pendingInvites && u != inviteeId)
      && forall j :: 0 <= j < |trips| && j != Keyed.FirstWithKey(trips, TripIdOf, tripId) ==> after[j] == trips[j]
  {
    var i := Keyed.FirstWithKey(trips, TripIdOf, tripId);
    var d := DenyInviteOn(trips, tripId, approverId, inviteeId).1;
    assert forall j :: 0 <= j < |d| ==> TripIdOf(d[j]) == TripIdOf(trips[j]);
    assert Keyed.FirstWithKey(d, TripIdOf, tripId) == i;
  }

  /** Every stored trip keeps the invite invariant. */
  predicate AllInvitesOk(trips: seq<Trip>)
  {
    forall j :: 0 <= j < |trips| ==> InvitesOk(trips[j])
  }

  /** Storing a trip whose invites are in order keeps every trip's invites in order. */
  lemma ReplaceInvitesOk(trips: seq<Trip>, stored: Trip)
    requires AllInvitesOk(trips) && InvitesOk(stored)
    ensures AllInvitesOk(Keyed.Replace(trips, TripIdOf, stored))
  {
    var r := Keyed.Replace(trips, TripIdOf, stored);
    Keyed.ReplaceMembers(trips, TripIdOf, stored);
    forall j | 0 <= j < |r| ensures InvitesOk(r[j]) {
      assert r[j] in r;
      if r[j] != stored {
        var k :| 0 <= k < |trips| && trips[k] == r[j];
      }
    }
  }

  /** `add_invite`, `approve_invite` and `deny_invite` each preserve the invite invariant. */
  lemma InviteOpsPreserve(trips: seq<Trip>, tripId: string, approverId: string, userId: string)
    requires AllInvitesOk(trips)
    ensures AllInvitesOk(AddInviteOn(trips, tripId, userId).1)
    ensures AllInvitesOk(ApproveInviteOn(trips, tripId, approverId, userId).1)
    ensures AllInvitesOk(DenyInviteOn(trips, tripId, approverId, userId).1)
  {
    var i := Keyed.FirstWithKey(trips, TripIdOf, tripId);
    if i >= 0 {
      var t := trips[i];
      if userId !in t.pendingInvites && userId !in t.userIds {
        var p := t.pendingInvites + [userId];
        forall a, b | 0 <= a < b < |p| ensures p[a] != p[b] {
          if b == |p| - 1 {
            assert p[a] in t.pendingInvites;
          }
        }
        assert InvitesOk(t.(pendingInvites := p));
      }
      PullNoDuplicates(t.pendingInvites, userId);
      assert InvitesOk(t.(pendingInvites := Pull(t.pendingInvites, userId), userIds := t.userIds + [userId]));
      assert InvitesOk(t.(pendingInvites := Pull(t.pendingInvites, userId)));
    }
  }

  class TripHandler {
    /** The `trips` collection. */
    var trips: seq<Trip>

    /** Trip ids are unique and every trip keeps the invite invariant. */
    predicate Valid()
      reads this
    {
      Keyed.UniqueKeys(trips, TripIdOf) && AllInvitesOk(trips)
    }

    constructor ()
      ensures trips == [] && Valid()
    {
      trips := [];
    }

    /** `add_trip`: the trip is stored with no pending invites, replacing any trip with its id. */
    method AddTrip(trip: Trip)
      requires Valid()
      modifies this
      ensures trips == Keyed.Replace(old(trips), TripIdOf, trip.(pendingInvites := []))
      ensures Keyed.WithKey(trips, TripIdOf, trip.tripId) == [trip.(pendingInvites := [])]
      ensures Valid()
    {
      var stored := trip.(pendingInvites := []);
      Keyed.UniqueKeysWithKey(trips, TripIdOf, trip.tripId);
      Keyed.ReplaceSpec(trips, TripIdOf, stored, trip.tripId);
      Keyed.ReplaceKeepsUnique(trips, TripIdOf, stored);
      var i := Keyed.FirstWithKey(trips, TripIdOf, trip.tripId);
      var kept := trips;
      if i >= 0 {
        kept := trips[..i] + trips[i + 1..];
      }
      assert kept == Keyed.DeleteFirstWithKey(trips, TripIdOf, trip.tripId);
      ReplaceInvitesOk(trips, stored);
      trips := kept + [stored];
    }

    method AddInvite(tripId: string, userId: string) returns (r: Response)
      requires Valid()
      modifies this
      ensures (r, trips) == AddInviteOn(old(trips), tripId, userId)
      ensures Valid()
    {
      InviteOpsPreserve(trips, tripId, "", userId);
      var i := Keyed.FirstWithKey(trips, TripIdOf, tripId);
      if i < 0 {
        return NotFound;
      }
      var t := trips[i];
      if userId in t.pendingInvites {
        return Message("User already invited");
      }
      if userId in t.userIds {
        return Message("User already part of the trip");
      }
      trips := trips[i := t.(pendingInvites := t.pendingInvites + [userId])];
      assert forall j :: 0 <= j < |trips| ==> TripIdOf(trips[j]) == TripIdOf(old(trips)[j]);
      r := Message("User invited successfully");
    }

    method ApproveInvite(tripId: string, approverId: string, inviteeId: string) returns (r: Response)
      requires Valid()
      modifies this
      ensures (r, trips) == ApproveInviteOn(old(trips), tripId, approverId, inviteeId)
      ensures Valid()
    {
      InviteOpsPreserve(trips, tripId, approverId, inviteeId);
      r := CheckApproval(trips, tripId, approverId, inviteeId);
      if r.Error? {
        return;
      }
      var i := Keyed.FirstWithKey(trips, TripIdOf, tripId);
      var t := trips[i];
      trips := trips[i := t.(pendingInvites := Pull(t.pendingInvites, inviteeId), userIds := t.userIds + [inviteeId])];
      assert forall j :: 0 <= j < |trips| ==> TripIdOf(trips[j]) == TripIdOf(old(trips)[j]);
      r := Message("Invite approved successfully");
    }

    method DenyInvite(tripId: string, approverId: string, inviteeId: string) returns (r: Response)
      requires Valid()
      modifies this
      ensures (r, trips) == DenyInviteOn(old(trips), tripId, approverId, inviteeId)
      ensures Valid()
    {
      InviteOpsPreserve(trips, tripId, approverId, inviteeId);
      r := CheckApproval(trips, tripId, approverId, inviteeId);
      if r.Error? {
        return;
      }
      var i := Keyed.FirstWithKey(trips, TripIdOf, tripId);
      trips := trips[i := trips[i].(pendingInvites := Pull(trips[i].pendingInvites, inviteeId))];
      assert forall j :: 0 <= j < |trips| ==> TripIdOf(trips[j]) == TripIdOf(old(trips)[j]);
      r := Message("Invite denied successfully");
    }

    /** `view_invites`: only a member of an existing trip sees its pending invitees. */
    method ViewInvites(tripId: string, userId: string) returns (r: Response)
      ensures !Found(trips, tripId) ==> r == NotFound
      ensures Found(trips, tripId) && userId !in TripOf(trips, tripId).userIds ==> r == Error("User is not part of the trip")
      ensures Found(trips, tripId) && userId in TripOf(trips, tripId).userIds ==> r == Invites(TripOf(trips, tripId).pendingInvites)
    {
      var i := Keyed.FirstWithKey(trips, TripIdOf, tripId);
      if i < 0 {
        return NotFound;
      }
      if userId !in trips[i].userIds {
        return Error("User is not part of the trip");
      }
      r := Invites(trips[i].pendingInvites);
    }

    /** `view_members`: only a member of an existing trip sees its members. */
    method ViewMembers(tripId: string, userId: string) returns (r: Response)
      ensures !Found(trips, tripId) ==> r == NotFound
      ensures Found(trips, tripId) && userId !in TripOf(trips, tripId).userIds ==> r == Error("User is not part of the trip")
      ensures Found(trips, tripId) && userId in TripOf(trips, tripId).userIds ==> r == Members(TripOf(trips, tripId).userIds)
    {
      var i := Keyed.FirstWithKey(trips, TripIdOf, tripId);
      if i < 0 {
        return NotFound;
      }
      if userId !in trips[i].userIds {
        return Error("User is not part of the trip");
      }
      r := Members(trips[i].userIds);
    }
  }
}
