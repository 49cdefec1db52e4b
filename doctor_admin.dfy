/** The bulk actions of the doctor admin page
    (healthcare_backend/api/admin.py, `DoctorAdmin`): approving or rejecting
    the selected doctors and (de)activating their linked user accounts.
    The queryset is the sequence of its doctors' keys; `message_user` is
    modelled by the returned count. */
module DoctorAdmin {
  import opened Js
  import opened Store

  /** The user a selected doctor is linked to. */
  predicate LinkedToSelected(doctors: map<int, Doctor>, selected: set<int>, u: int) {
    exists d :: d in selected && d in doctors && doctors[d].user == Some(u)
  }

  /** The users after the accounts linked to the `chosen` doctors have been
      given `isActive == flag`. */
  function Activated(users: map<int, Account>, doctors: map<int, Doctor>, chosen: set<int>, flag: bool): (r: map<int, Account>)
    ensures r.Keys == users.Keys
  {
    map u | u in users :: if LinkedToSelected(doctors, chosen, u) then users[u].(isActive := flag) else users[u]
  }

  /** Handling one more doctor updates at most its own linked user. */
  lemma ActivatedStep(users: map<int, Account>, doctors: map<int, Doctor>, chosen: set<int>, d: int, flag: bool)
    requires d in doctors
    ensures var u := doctors[d].user;
            Activated(users, doctors, chosen + {d}, flag) ==
              if u.Some? && u.value in users
              then Activated(users, doctors, chosen, flag)[u.value := users[u.value].(isActive := flag)]
              else Activated(users, doctors, chosen, flag)
  {
    var u := doctors[d].user;
    var next := Activated(users, doctors, chosen + {d}, flag);
    var prev := Activated(users, doctors, chosen, flag);
    forall v | v in users
      ensures LinkedToSelected(doctors, chosen + {d}, v) <==> LinkedToSelected(doctors, chosen, v) || u == Some(v)
    {
      if LinkedToSelected(doctors, chosen + {d}, v) && u != Some(v) {
        var e :| e in chosen + {d} && e in doctors && doctors[e].user == Some(v);
      }
    }
  }

  /** The keys of the first `n` rows of the queryset. */
  function Prefix(rows: seq<int>, n: nat): (r: set<int>)
    requires n <= |rows|
    ensures forall d :: d in r <==> exists i :: 0 <= i < n && rows[i] == d
  {
    set i | 0 <= i < n :: rows[i]
  }

  /** The loop over the queryset: each selected doctor's linked user, if
      any, gets `is_active = flag`. */
  method ActivateLinked(users: map<int, Account>, doctors: map<int, Doctor>, rows: seq<int>, flag: bool)
    returns (result: map<int, Account>)
    requires forall i :: 0 <= i < |rows| ==> rows[i] in doctors
    ensures result == Activated(users, doctors, Prefix(rows, |rows|), flag)
  {
    result := users;
    var i := 0;
    assert Prefix(rows, 0) == {};
    assert Activated(users, doctors, {}, flag) == users;
    while i < |rows|
      invariant i <= |rows|
      invariant result == Activated(users, doctors, Prefix(rows, i), flag)
    {
      var link := doctors[rows[i]].user;
      ActivatedStep(users, doctors, Prefix(rows, i), rows[i], flag);
      assert Prefix(rows, i + 1) == Prefix(rows, i) + {rows[i]};
      if link.Some? && link.value in result {
        result := result[link.value := result[link.value].(isActive := flag)];
      }
      i := i + 1;
    }
  }

  /** The rows `queryset.update(is_approved=flag)` leaves. */
  function Approved(doctors: map<int, Doctor>, selected: set<int>, flag: bool): (r: map<int, Doctor>)
    ensures r.Keys == doctors.Keys
    ensures forall d :: d in r ==> r[d] == if d in selected then doctors[d].(isApproved := flag) else doctors[d]
  {
    map d | d in doctors :: if d in selected then doctors[d].(isApproved := flag) else doctors[d]
  }

  /** Changing only the flags of the rows keeps every key, link and email
      the database's invariant speaks of. */
  lemma FlagsKeepLinks(users: map<int, Account>, patients: map<int, Patient>, doctors: map<int, Doctor>,
                       users2: map<int, Account>, doctors2: map<int, Doctor>)
    requires PatientsOwned(users, patients) && DoctorsLinked(users, doctors)
    requires EmailsUnique(doctors) && UserLinksUnique(doctors)
    requires users2.Keys == users.Keys && doctors2.Keys == doctors.Keys
    requires forall d :: d in doctors ==>
               doctors2[d].user == doctors[d].user && doctors2[d].createdBy == doctors[d].createdBy
               && doctors2[d].email == doctors[d].email
    ensures PatientsOwned(users2, patients) && DoctorsLinked(users2, doctors2)
    ensures EmailsUnique(doctors2) && UserLinksUnique(doctors2)
  {
  }

  /** The keys a sequence of rows holds. */
  function Members(rows: seq<int>): set<int> {
    set d | d in rows
  }

  /** Evaluating the action's queryset: the selected rows, in changelist
      order, that the changelist's filter `listed` (its `is_approved` and
      `created_at` filters and search) still admits. Django runs this query
      each time the queryset is used and has no cached result. */
  function Query(doctors: map<int, Doctor>, rows: seq<int>, listed: Doctor -> bool): (r: seq<int>)
    ensures forall d :: d in r <==> d in rows && d in doctors && listed(doctors[d])
    ensures |r| <= |rows|
  {
    if rows == [] then []
    else (if rows[0] in doctors && listed(doctors[rows[0]]) then [rows[0]] else []) + Query(doctors, rows[1..], listed)
  }

  /** `queryset.update(is_approved=flag)` followed by the loop
      `for doctor in queryset` that sets `is_active = flag` on each doctor's
      user, if it has one. `rows` are the selected doctors' keys and
      `listed` the changelist's filter. The update counts the rows the
      query matches; the loop runs the query again, after the update, so it
      visits only the rows the filter still admits. */
  method Moderate(db: Database, rows: seq<int>, listed: Doctor -> bool, flag: bool) returns (updated: nat)
    requires db.Valid()
    requires forall i, j :: 0 <= i < j < |rows| ==> rows[i] != rows[j]
    modifies db`doctors, db`users
    ensures db.Valid()
    ensures updated == |Query(old(db.doctors), rows, listed)|
    ensures db.doctors == Approved(old(db.doctors), Members(Query(old(db.doctors), rows, listed)), flag)
    ensures db.users == Activated(old(db.users), db.doctors, Members(Query(db.doctors, rows, listed)), flag)
  {
    var matched := Query(db.doctors, rows, listed);
    var doctors := Approved(db.doctors, Members(matched), flag);
    var visited := Query(doctors, rows, listed);
    var users := ActivateLinked(db.users, doctors, visited, flag);
    assert Prefix(visited, |visited|) == Members(visited);
    FlagsKeepLinks(db.users, db.patients, db.doctors, users, doctors);
    db.doctors := doctors;
    db.users := users;
    updated := |matched|;
    DistinctQuery(old(db.doctors), rows, listed);
  }

  /** A query over distinct keys lists each matching key once. */
  lemma {:induction false} DistinctQuery(doctors: map<int, Doctor>, rows: seq<int>, listed: Doctor -> bool)
    requires forall i, j :: 0 <= i < j < |rows| ==> rows[i] != rows[j]
    ensures forall i, j :: 0 <= i < j < |Query(doctors, rows, listed)| ==>
              Query(doctors, rows, listed)[i] != Query(doctors, rows, listed)[j]
  {
    if rows != [] {
      DistinctQuery(doctors, rows[1..], listed);
    }
  }

  /** `approve_doctors`: the doctors the query matches are approved, the
      users of the doctors the second query visits are activated, and the
      count is the number of rows updated. */
  method ApproveDoctors(db: Database, rows: seq<int>, listed: Doctor -> bool) returns (updated: nat)
    requires db.Valid()
    requires forall i, j :: 0 <= i < j < |rows| ==> rows[i] != rows[j]
    modifies db`doctors, db`users
    ensures db.Valid()
    ensures updated == |Query(old(db.doctors), rows, listed)|
    ensures db.doctors.Keys == old(db.doctors).Keys
    ensures forall d :: d in Query(old(db.doctors), rows, listed) ==> db.doctors[d] == old(db.doctors)[d].(isApproved := true)
    ensures forall d :: d in old(db.doctors) && d !in Query(old(db.doctors), rows, listed) ==> db.doctors[d] == old(db.doctors)[d]
    ensures db.users.Keys == old(db.users).Keys
    ensures forall u :: u in old(db.users) && LinkedToSelected(db.doctors, Members(Query(db.doctors, rows, listed)), u) ==>
              db.users[u] == old(db.users)[u].(isActive := true)
    ensures forall u :: u in old(db.users) && !LinkedToSelected(db.doctors, Members(Query(db.doctors, rows, listed)), u) ==>
              db.users[u] == old(db.users)[u]
  {
    updated := Moderate(db, rows, listed, true);
  }

  /** `reject_doctors`: the doctors the query matches are marked not
      approved and the users of the doctors the second query visits are
      deactivated. */
  method RejectDoctors(db: Database, rows: seq<int>, listed: Doctor -> bool) returns (updated: nat)
    requires db.Valid()
    requires forall i, j :: 0 <= i < j < |rows| ==> rows[i] != rows[j]
    modifies db`doctors, db`users
    ensures db.Valid()
    ensures updated == |Query(old(db.doctors), rows, listed)|
    ensures db.doctors.Keys == old(db.doctors).Keys
    ensures forall d :: d in Query(old(db.doctors), rows, listed) ==> db.doctors[d] == old(db.doctors)[d].(isApproved := false)
    ensures forall d :: d in old(db.doctors) && d !in Query(old(db.doctors), rows, listed) ==> db.doctors[d] == old(db.doctors)[d]
    ensures db.users.Keys == old(db.users).Keys
    ensures forall u :: u in old(db.users) && LinkedToSelected(db.doctors, Members(Query(db.doctors, rows, listed)), u) ==>
              db.users[u] == old(db.users)[u].(isActive := false)
    ensures forall u :: u in old(db.users) && !LinkedToSelected(db.doctors, Members(Query(db.doctors, rows, listed)), u) ==>
              db.users[u] == old(db.users)[u]
  {
    updated := Moderate(db, rows, listed, false);
  }

  /** On an unfiltered changelist both evaluations of the queryset are the
      selected rows themselves, so every selected doctor's user changes. */
  lemma UnfilteredQuery(before: map<int, Doctor>, after: map<int, Doctor>, rows: seq<int>, listed: Doctor -> bool)
    requires forall doc :: listed(doc)
    requires forall i :: 0 <= i < |rows| ==> rows[i] in before && rows[i] in after
    ensures Members(Query(before, rows, listed)) == Members(rows)
    ensures Members(Query(after, rows, listed)) == Members(rows)
  {
  }

  /** With the changelist filtered to the doctors not yet approved,
      approving re-runs a query that matches none of them: the loop visits
      no row and no user is activated. Rejecting under the "approved"
      filter is the mirror case. */
  lemma ModerationUnderOwnFilter(doctors: map<int, Doctor>, rows: seq<int>, flag: bool, listed: Doctor -> bool)
    requires forall doc :: listed(doc) <==> doc.isApproved != flag
    ensures var matched := Members(Query(doctors, rows, listed));
            Query(Approved(doctors, matched, flag), rows, listed) == []
  {
    var after := Approved(doctors, Members(Query(doctors, rows, listed)), flag);
    forall d | d in rows && d in after
      ensures !listed(after[d])
    {
    }
    QueryNone(after, rows, listed);
  }

  /** A query none of whose selected rows passes the filter is empty. */
  lemma {:induction false} QueryNone(doctors: map<int, Doctor>, rows: seq<int>, listed: Doctor -> bool)
    requires forall d :: d in rows && d in doctors ==> !listed(doctors[d])
    ensures Query(doctors, rows, listed) == []
  {
    if rows != [] {
      assert forall d :: d in rows[1..] ==> d in rows;
      QueryNone(doctors, rows[1..], listed);
      assert rows[0] in rows;
      var d := rows[0];
      if d in doctors {
        assert !listed(doctors[d]);
      }
      assert Query(doctors, rows, listed) == [] + Query(doctors, rows[1..], listed);
    }
  }
}
