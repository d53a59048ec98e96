/**
 * The rows of the backend's tables and the generic sequence operations the
 * queries are built from: a `.eq(...)` filter is `Filter`, an
 * `.order('created_at', { ascending: false })` over a table kept in creation
 * order is `Reverse`.
 */
module Rows {

  /** Row identifiers and user identifiers are the backend's text keys. */
  type Id = string
  type UserId = string

  datatype Vehicle = Vehicle(
    id: Id, customerId: UserId, make: string, model: string, year: int, licensePlate: string)

  datatype JobOrder = JobOrder(
    id: Id, vehicleId: Id, customerId: UserId, description: string, status: string, createdAt: int)

  datatype RentalCar = RentalCar(
    id: Id, make: string, model: string, year: int, carType: string, dailyRate: int,
    licensePlate: string, available: bool, createdAt: int)

  datatype RentalBooking = RentalBooking(
    id: Id, carId: Id, customerId: UserId, startDate: string, endDate: string,
    totalAmount: int, status: string, createdAt: int)

  datatype Invoice = Invoice(id: Id, customerId: UserId, total: int)

  // Creation-time keys, used as function values by the ordering predicates.
  function JobCreated(j: JobOrder): int { j.createdAt }
  function CarCreated(c: RentalCar): int { c.createdAt }
  function BookingCreated(b: RentalBooking): int { b.createdAt }

  // Owner keys of the rows that carry a `customer_id` column.
  function VehicleOwner(v: Vehicle): UserId { v.customerId }
  function JobOwner(j: JobOrder): UserId { j.customerId }
  function BookingOwner(b: RentalBooking): UserId { b.customerId }
  function InvoiceOwner(i: Invoice): UserId { i.customerId }

  /** The row test of `.eq('customer_id', user)`. */
  function OwnedBy<T(!new)>(owner: T -> UserId, user: UserId): (p: T -> bool)
    ensures forall x :: p(x) <==> owner(x) == user
  {
    x => owner(x) == user
  }

  /** Strictly increasing by `key`: the order rows are created in. */
  ghost predicate Increasing<T>(s: seq<T>, key: T -> int) {
    forall i, j :: 0 <= i < j < |s| ==> key(s[i]) < key(s[j])
  }

  /** Strictly decreasing by `key`: newest first. */
  ghost predicate Decreasing<T>(s: seq<T>, key: T -> int) {
    forall i, j :: 0 <= i < j < |s| ==> key(s[i]) > key(s[j])
  }

  /** The rows of `s` that satisfy `p`, in their original order. */
  function Filter<T(!new)>(s: seq<T>, p: T -> bool): (r: seq<T>)
    ensures |r| <= |s|
    ensures forall x :: x in r <==> x in s && p(x)
  {
    if s == [] then []
    else if p(s[0]) then [s[0]] + Filter(s[1..], p)
    else Filter(s[1..], p)
  }

  lemma {:induction false} FilterNone<T(!new)>(s: seq<T>, p: T -> bool)
    requires forall x :: x in s ==> !p(x)
    ensures Filter(s, p) == []
  {
    if s != [] {
      assert s[0] in s;
      FilterNone(s[1..], p);
    }
  }

  /** `s` back to front. */
  function Reverse<T>(s: seq<T>): (r: seq<T>)
    ensures |r| == |s|
    ensures forall i :: 0 <= i < |s| ==> r[i] == s[|s| - 1 - i]
  {
    if s == [] then [] else Reverse(s[1..]) + [s[0]]
  }

  lemma ReverseMembers<T>(s: seq<T>)
    ensures forall x :: x in Reverse(s) <==> x in s
  {
  }

  lemma {:induction false} FilterAppend<T(!new)>(s: seq<T>, t: seq<T>, p: T -> bool)
    ensures Filter(s + t, p) == Filter(s, p) + Filter(t, p)
  {
    if s == [] {
      assert s + t == t;
    } else {
      assert (s + t)[1..] == s[1..] + t;
      FilterAppend(s[1..], t, p);
    }
  }

  lemma {:induction false} FilterIncreasing<T(!new)>(s: seq<T>, p: T -> bool, key: T -> int)
    requires Increasing(s, key)
    ensures Increasing(Filter(s, p), key)
  {
    if s != [] {
      var t := Filter(s[1..], p);
      FilterIncreasing(s[1..], p, key);
      if p(s[0]) {
        var r := Filter(s, p);
        assert r == [s[0]] + t;
        forall i, j | 0 <= i < j < |r| ensures key(r[i]) < key(r[j]) {
          if i == 0 {
            assert r[j] == t[j - 1] && t[j - 1] in s[1..];
            var k :| 0 <= k < |s[1..]| && s[1..][k] == t[j - 1];
            assert s[k + 1] == r[j];
          } else {
            assert r[i] == t[i - 1] && r[j] == t[j - 1];
          }
        }
      }
    }
  }

  lemma ReverseDecreasing<T>(s: seq<T>, key: T -> int)
    requires Increasing(s, key)
    ensures Decreasing(Reverse(s), key)
  {
  }

  lemma ReverseAppendOne<T>(s: seq<T>, x: T)
    ensures Reverse(s + [x]) == [x] + Reverse(s)
  {
  }

  /**
   * The newest-first listing of the rows of `s` satisfying `p`: holds exactly
   * those rows, and is newest first when `s` is in creation order.
   */
  function NewestFirst<T(!new)>(s: seq<T>, p: T -> bool, ghost key: T -> int): (r: seq<T>)
    ensures forall x :: x in r <==> x in s && p(x)
    ensures Increasing(s, key) ==> Decreasing(r, key)
  {
    var f := Filter(s, p);
    ReverseMembers(f);
    FilteredReverseOrdered(s, p, key);
    Reverse(f)
  }

  lemma FilteredReverseOrdered<T(!new)>(s: seq<T>, p: T -> bool, key: T -> int)
    ensures Increasing(s, key) ==> Decreasing(Reverse(Filter(s, p)), key)
  {
    if Increasing(s, key) {
      FilterIncreasing(s, p, key);
      ReverseDecreasing(Filter(s, p), key);
    }
  }

  /** A newly created row satisfying the filter heads the listing. */
  lemma NewestFirstAppend<T(!new)>(s: seq<T>, x: T, p: T -> bool, key: T -> int)
    ensures NewestFirst(s + [x], p, key)
         == if p(x) then [x] + NewestFirst(s, p, key) else NewestFirst(s, p, key)
  {
    FilterAppend(s, [x], p);
    assert Filter([x], p) == if p(x) then [x] else [];
    if p(x) {
      ReverseAppendOne(Filter(s, p), x);
    } else {
      assert Filter(s, p) + [] == Filter(s, p);
    }
  }
}
