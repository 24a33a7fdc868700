/** The appointment routes of backend/server.js: a patient books an open
    slot, a clinician publishes open slots. The appointments collection is a
    map from document id to document; ids of new documents are handed out in
    increasing order. */
module Appointments {
  import opened Basics

  datatype Role = Patient | Clinician

  /** The caller identified by the bearer token. */
  datatype User = User(id: nat, role: Role)

  datatype Status = Available | Booked | Cancelled

  /** An appointment document; times are milliseconds since the epoch. */
  datatype Appointment = Appointment(clinician: nat, patient: Option<nat>, start: int, end: int, status: Status)

  type Store = map<nat, Appointment>

  /** An entry of the `slots` array a clinician posts. */
  datatype SlotRequest = SlotRequest(start: int, end: int)

  /** The documents of the collection agree with the two routes: an open
      slot has no patient, a booked one has. */
  predicate WellFormed(store: Store)
  {
    forall id :: id in store ==>
      (store[id].status == Available ==> store[id].patient.None?) &&
      (store[id].status == Booked ==> store[id].patient.Some?)
  }

  /** The answer of POST /api/appointments/book together with the collection
      it leaves behind. */
  datatype BookResult = BookResult(code: nat, store: Store, updated: Option<Appointment>)

  /** POST /api/appointments/book: only a patient may book (403); the slot
      must exist and still be open (400, nothing changes); then that one slot
      becomes booked by the caller and is returned (200). */
  function Book(store: Store, caller: User, slotId: nat): (o: BookResult)
    ensures o.code == 403 <==> caller.role != Patient
    ensures o.code == 200 <==> caller.role == Patient && slotId in store && store[slotId].status == Available
    ensures o.code == 400 <==> caller.role == Patient && !(slotId in store && store[slotId].status == Available)
    ensures o.code != 200 ==> o.store == store && o.updated.None?
    ensures o.code == 200 ==>
              o.store.Keys == store.Keys &&
              o.updated == Some(o.store[slotId]) &&
              o.store[slotId].status == Booked && o.store[slotId].patient == Some(caller.id) &&
              o.store[slotId].clinician == store[slotId].clinician &&
              o.store[slotId].start == store[slotId].start && o.store[slotId].end == store[slotId].end
    ensures forall id :: id in store && id != slotId ==> id in o.store && o.store[id] == store[id]
  {
    if caller.role != Patient then BookResult(403, store, None)
    else if slotId !in store || store[slotId].status != Available then BookResult(400, store, None)
    else
      var booked := store[slotId].(status := Booked, patient := Some(caller.id));
      BookResult(200, store[slotId := booked], Some(booked))
  }

  /** Booking keeps the collection well formed. */
  lemma BookKeepsWellFormed(store: Store, caller: User, slotId: nat)
    requires WellFormed(store)
    ensures WellFormed(Book(store, caller, slotId).store)
  {
  }

  /** A slot is never booked twice: once one patient holds it, a second
      request for it is refused and the first patient keeps it. */
  lemma NoDoubleBooking(store: Store, first: User, second: User, slotId: nat)
    requires Book(store, first, slotId).code == 200
    ensures Book(Book(store, first, slotId).store, second, slotId).code != 200
    ensures Book(Book(store, first, slotId).store, second, slotId).store[slotId].patient == Some(first.id)
  {
  }

  /** The documents `slots.map(...)` builds: owned by the caller, open, no
      patient. */
  function Docs(clinician: nat, slots: seq<SlotRequest>): (docs: seq<Appointment>)
    ensures |docs| == |slots|
    ensures forall i :: 0 <= i < |slots| ==>
              docs[i] == Appointment(clinician, None, slots[i].start, slots[i].end, Available)
  {
    seq(|slots|, i requires 0 <= i < |slots| => Appointment(clinician, None, slots[i].start, slots[i].end, Available))
  }

  /** insertMany: the documents stored under the next free ids, in order;
      a document already stored under an id below `nextId` stays as it was. */
  function Inserted(store: Store, nextId: nat, docs: seq<Appointment>): (r: Store)
    ensures forall id :: id in r <==> id in store || nextId <= id < nextId + |docs|
    ensures forall id :: id in store && id < nextId ==> r[id] == store[id]
    ensures forall i :: 0 <= i < |docs| ==> r[nextId + i] == docs[i]
  {
    if docs == [] then store
    else
      var n := |docs| - 1;
      assert forall i :: 0 <= i < n ==> docs[..n][i] == docs[i];
      Inserted(store, nextId, docs[..n])[nextId + n := docs[n]]
  }

  /** The answer of POST /api/clinician/availability, the collection it
      leaves behind and the next free id. */
  datatype AddResult = AddResult(code: nat, store: Store, nextId: nat, created: seq<Appointment>)

  /** POST /api/clinician/availability: only a clinician may publish slots
      (403); `slots` must be a non-empty array (400); then every requested
      slot is stored as an open slot of the caller and the created documents
      are returned (201). */
  function AddAvailability(store: Store, nextId: nat, caller: User, slots: Option<seq<SlotRequest>>): (o: AddResult)
    ensures o.code == 403 <==> caller.role != Clinician
    ensures o.code == 400 <==> caller.role == Clinician && (slots.None? || |slots.value| == 0)
    ensures o.code == 201 <==> caller.role == Clinician && slots.Some? && |slots.value| > 0
    ensures o.code != 201 ==> o.store == store && o.nextId == nextId && o.created == []
    ensures o.code == 201 ==>
              |o.created| == |slots.value| && o.nextId == nextId + |slots.value| &&
              o.store == Inserted(store, nextId, o.created) &&
              forall i :: 0 <= i < |o.created| ==>
                o.created[i].clinician == caller.id && o.created[i].patient.None? &&
                o.created[i].status == Available &&
                o.created[i].start == slots.value[i].start && o.created[i].end == slots.value[i].end
  {
    if caller.role != Clinician then AddResult(403, store, nextId, [])
    else if slots.None? || |slots.value| == 0 then AddResult(400, store, nextId, [])
    else
      var docs := Docs(caller.id, slots.value);
      AddResult(201, Inserted(store, nextId, docs), nextId + |docs|, docs)
  }

  /** Publishing slots keeps the collection well formed. */
  lemma AddKeepsWellFormed(store: Store, nextId: nat, caller: User, slots: Option<seq<SlotRequest>>)
    requires WellFormed(store) && forall id :: id in store ==> id < nextId
    ensures WellFormed(AddAvailability(store, nextId, caller, slots).store)
  {
    var o := AddAvailability(store, nextId, caller, slots);
    if o.code == 201 {
      forall id | id in o.store
        ensures (o.store[id].status == Available ==> o.store[id].patient.None?) &&
                (o.store[id].status == Booked ==> o.store[id].patient.Some?)
      {
        if id !in store {
          assert o.store[id] == o.created[id - nextId];
        }
      }
    }
  }

  /** Publishing slots never touches an existing booking. */
  lemma AddKeepsBookings(store: Store, nextId: nat, caller: User, slots: Option<seq<SlotRequest>>, id: nat)
    requires forall k :: k in store ==> k < nextId
    requires id in store
    ensures AddAvailability(store, nextId, caller, slots).store[id] == store[id]
  {
  }

  /** The appointments collection the two routes update. */
  class AppointmentBook {
    var slots: Store
    var nextId: nat

    ghost predicate Valid()
      reads this
    {
      WellFormed(slots) && forall id :: id in slots ==> id < nextId
    }

    constructor ()
      ensures Valid() && slots == map[] && nextId == 0
    {
      slots := map[];
      nextId := 0;
    }

    /** insertMany: stores the documents under fresh ids, one by one. */
    method InsertMany(docs: seq<Appointment>)
      modifies this
      requires forall id :: id in slots ==> id < nextId
      ensures slots == Inserted(old(slots), old(nextId), docs)
      ensures nextId == old(nextId) + |docs|
      ensures forall id :: id in slots ==> id < nextId
    {
      var i := 0;
      while i < |docs|
        invariant 0 <= i <= |docs|
        invariant nextId == old(nextId) + i
        invariant slots == Inserted(old(slots), old(nextId), docs[..i])
      {
        slots := slots[nextId := docs[i]];
        nextId := nextId + 1;
        i := i + 1;
        assert docs[..i][..i - 1] == docs[..i - 1];
      }
      assert docs[..i] == docs;
    }

    /** The book route on the collection. */
    method BookSlot(caller: User, slotId: nat) returns (code: nat, updated: Option<Appointment>)
      modifies this
      requires Valid()
      ensures Valid()
      ensures Book(old(slots), caller, slotId) == BookResult(code, slots, updated)
      ensures nextId == old(nextId)
    {
      if caller.role != Patient {
        return 403, None;
      }
      if slotId !in slots || slots[slotId].status != Available {
        return 400, None;
      }
      var booked := slots[slotId].(status := Booked, patient := Some(caller.id));
      slots := slots[slotId := booked];
      return 200, Some(booked);
    }

    /** The add-availability route on the collection. */
    method AddSlots(caller: User, requested: Option<seq<SlotRequest>>) returns (code: nat, created: seq<Appointment>)
      modifies this
      requires Valid()
      ensures Valid()
      ensures AddAvailability(old(slots), old(nextId), caller, requested) == AddResult(code, slots, nextId, created)
    {
      if caller.role != Clinician {
        return 403, [];
      }
      if requested.None? || |requested.value| == 0 {
        return 400, [];
      }
      created := Docs(caller.id, requested.value);
      AddKeepsWellFormed(slots, nextId, caller, requested);
      InsertMany(created);
      code := 201;
    }
  }
}
