/**
 The in-memory train adapter and the provider MissionWorld assumes: it honours its idempotency keys
 (app/adapters/mock_train.py:110-185).
 */
module MockTrain {
  import opened Wrappers
  import opened MissionDomain
  import opened MissionSteps
  import W = MissionWorld
  import opened MissionWorld

  /** The reservation id is made of the key, so different keys never share one. */
  function IdFor(key: Key): ReservationId {
    match key
    case ReservationKey(id) => 3 * id
    case ConfirmationKey(id) => 3 * id + 1
    case CancellationKey(id) => 3 * id + 2
  }

  class MockTrainAdapter {
    const provider: ProviderId
    var reservationsByKey: map<Key, ReservationId>
    var confirmationsByKey: map<Key, bool>
    var cancellationsByKey: map<Key, bool>
    var cancelled: set<ReservationId>
    /** The requests that made something happen, in order, and what each confirmation was for. */
    ghost var made: seq<(ProviderId, Key)>
    ghost var confirmedFor: map<Key, ReservationId>

    ghost predicate Valid()
      reads this
    {
      && (forall key :: key in reservationsByKey ==> reservationsByKey[key] == IdFor(key))
      && confirmedFor.Keys == confirmationsByKey.Keys
      && (forall key :: key in reservationsByKey <==> (provider, key) in made)
    }

    /** The adapter as the provider of MissionWorld: it asks for a confirmation of every reservation. */
    ghost function Book(): ProviderBook
      reads this
      requires Valid()
    {
      ProviderBook(
        map pair: (ProviderId, Key) | pair in Pairs() :: Booking(IdFor(pair.1), true),
        made,
        Settled())
    }

    ghost function Settled(): set<(ProviderId, ReservationId)>
      reads this
      requires confirmedFor.Keys == confirmationsByKey.Keys
    {
      set key | key in confirmationsByKey && confirmationsByKey[key] :: (provider, confirmedFor[key])
    }

    ghost function Pairs(): set<(ProviderId, Key)>
      reads this
    {
      set key | key in reservationsByKey :: (provider, key)
    }

    constructor (provider: ProviderId)
      ensures Valid() && this.provider == provider && Book() == ProviderBook(map[], [], {})
    {
      this.provider := provider;
      reservationsByKey, confirmationsByKey, cancellationsByKey, cancelled := map[], map[], map[], {};
      made, confirmedFor := [], map[];
    }

    /** `reserve_option`: the key-honouring reservation of MissionWorld. */
    method ReserveOption(key: Key) returns (answer: ReserveAnswer)
      requires Valid()
      modifies this
      ensures Valid() && cancelled == old(cancelled)
      ensures (Book(), answer) == W.Reserve(old(Book()), provider, key, Books(Booking(IdFor(key), true)))
    {
      if key in reservationsByKey {
        assert (provider, key) in Book().reservations;
        return Reserved(reservationsByKey[key], true);
      }
      ghost var before := Book();
      assert (provider, key) !in before.reservations;
      reservationsByKey := reservationsByKey[key := IdFor(key)];
      made := made + [(provider, key)];
      assert Pairs() == old(Pairs()) + {(provider, key)};
      assert Book().reservations == before.reservations[(provider, key) := Booking(IdFor(key), true)];
      return Reserved(IdFor(key), true);
    }

    predicate Confirmable(reservation: ReservationId)
      reads this
    {
      reservation in reservationsByKey.Values && reservation !in cancelled
    }

    /** `confirm_reservation`: a used key repeats its answer; a new one confirms what is reserved and not cancelled. */
    method ConfirmReservation(reservation: ReservationId, key: Key) returns (answer: CallAnswer)
      requires Valid()
      modifies this
      ensures Valid() && cancelled == old(cancelled)
      ensures key in old(confirmationsByKey) ==> answer == (if old(confirmationsByKey[key]) then Accepted else Rejected) && Book() == old(Book())
      ensures key !in old(confirmationsByKey) ==> (answer == Accepted <==> old(Confirmable(reservation)))
      ensures key in confirmationsByKey && (answer == if confirmationsByKey[key] then Accepted else Rejected)
      ensures key !in old(confirmationsByKey) || old(confirmedFor[key]) == reservation ==>
                Book() == W.Confirm(old(Book()), provider, reservation, ConfirmFate(answer, false))
    {
      ghost var before := Book();
      if key in confirmationsByKey {
        answer := if confirmationsByKey[key] then Accepted else Rejected;
        if confirmationsByKey[key] {
          assert (provider, confirmedFor[key]) in before.settled;
          assert before.settled + {(provider, confirmedFor[key])} == before.settled;
        }
        return;
      }
      var confirmable := Confirmable(reservation);
      confirmationsByKey := confirmationsByKey[key := confirmable];
      confirmedFor := confirmedFor[key := reservation];
      assert Pairs() == old(Pairs());
      ghost var settled := if confirmable then before.settled + {(provider, reservation)} else before.settled;
      forall x
        ensures x in Settled() <==> x in settled
      {
        if x in settled {
          if x in before.settled {
            var k :| k in old(confirmationsByKey) && old(confirmationsByKey[k]) && x == (provider, old(confirmedFor[k]));
            assert k in confirmationsByKey && confirmationsByKey[k] && confirmedFor[k] == old(confirmedFor[k]);
          } else {
            assert key in confirmationsByKey && confirmationsByKey[key] && confirmedFor[key] == reservation;
          }
        }
      }
      answer := if confirmable then Accepted else Rejected;
    }

    /** `cancel_reservation`: a used key repeats its answer; a cancelled reservation can no longer be confirmed. */
    method CancelReservation(reservation: ReservationId, key: Key) returns (answer: CallAnswer)
      requires Valid()
      modifies this
      ensures Valid() && Book() == old(Book())
      ensures key in old(cancellationsByKey) ==>
                answer == (if old(cancellationsByKey[key]) then Accepted else Rejected) && cancelled == old(cancelled)
      ensures key !in old(cancellationsByKey) ==>
                && (answer == Accepted <==> reservation in reservationsByKey.Values)
                && cancelled == old(cancelled) + (if answer == Accepted then {reservation} else {})
                && !Confirmable(reservation)
      ensures key in cancellationsByKey && (answer == if cancellationsByKey[key] then Accepted else Rejected)
    {
      if key in cancellationsByKey {
        return if cancellationsByKey[key] then Accepted else Rejected;
      }
      var found := reservation in reservationsByKey.Values;
      if found {
        cancelled := cancelled + {reservation};
      }
      cancellationsByKey := cancellationsByKey[key := found];
      assert Pairs() == old(Pairs());
      return if found then Accepted else Rejected;
    }
  }
}
