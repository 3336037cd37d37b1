/**
 The count table: a fixed, ordered list of five records, each a category
 name with a count, all starting at zero. `Increment` walks the list, adds
 one to the first record whose name matches and stops there.
 */
module Counts {
  import opened Classifier

  /** One record of the table. */
  datatype Entry = Entry(name: string, count: int)

  /** The table at the start of a request: the five categories in order, all at zero. */
  function Initial(): (t: seq<Entry>)
    ensures |t| == |Order|
    ensures forall k :: 0 <= k < |t| ==> t[k] == Entry(CategoryName(Order[k]), 0)
  {
    [ Entry("Triunghiuri", 0),
      Entry("Pătrate", 0),
      Entry("Dreptunghiuri", 0),
      Entry("Pentagoane", 0),
      Entry("Cercuri", 0) ]
  }

  /** The shape of the table at every point of a request: the five names in order, no negative count. */
  ghost predicate WellFormed(t: seq<Entry>)
  {
    && |t| == |Order|
    && (forall k :: 0 <= k < |t| ==> t[k].name == CategoryName(Order[k]))
    && (forall k :: 0 <= k < |t| ==> t[k].count >= 0)
  }

  /** Some record of the table carries this name. */
  ghost predicate Known(t: seq<Entry>, name: string)
  {
    exists j :: 0 <= j < |t| && t[j].name == name
  }

  /** The table after incrementing `name`: the first record with that name gains one. */
  function Bumped(t: seq<Entry>, name: string): (r: seq<Entry>)
    ensures |r| == |t|
  {
    if t == [] then []
    else if t[0].name == name then [t[0].(count := t[0].count + 1)] + t[1..]
    else [t[0]] + Bumped(t[1..], name)
  }

  /** An increment keeps every name and position, and raises a count by at most one. */
  lemma {:induction false} BumpedFrame(t: seq<Entry>, name: string)
    ensures forall k :: 0 <= k < |t| ==> Bumped(t, name)[k].name == t[k].name
    ensures forall k :: 0 <= k < |t| ==> t[k].count <= Bumped(t, name)[k].count <= t[k].count + 1
  {
    if t != [] && t[0].name != name {
      BumpedFrame(t[1..], name);
      forall k | 0 <= k < |t|
        ensures Bumped(t, name)[k].name == t[k].name
        ensures t[k].count <= Bumped(t, name)[k].count <= t[k].count + 1
      {
        if k > 0 {
          assert Bumped(t, name)[k] == Bumped(t[1..], name)[k - 1];
          assert t[k] == t[1..][k - 1];
        }
      }
    }
  }

  /** The sum of all counts. */
  function Sum(t: seq<Entry>): (n: int)
    ensures (forall k :: 0 <= k < |t| ==> t[k].count >= 0) ==> n >= 0
  {
    if t == [] then 0 else t[0].count + Sum(t[1..])
  }

  /**
   Incrementing a name that occurs first at position k adds one to that
   record's count; every other record, every name and the order stay as they were.
   */
  lemma {:induction false} BumpedFirstMatch(t: seq<Entry>, name: string, k: nat)
    requires k < |t| && t[k].name == name
    requires forall j :: 0 <= j < k ==> t[j].name != name
    ensures Bumped(t, name) == t[k := t[k].(count := t[k].count + 1)]
  {
    if k > 0 {
      BumpedFirstMatch(t[1..], name, k - 1);
      assert [t[0]] + t[1..][k - 1 := t[k].(count := t[k].count + 1)]
          == t[k := t[k].(count := t[k].count + 1)];
    }
  }

  /** Incrementing a name that no record carries changes nothing. */
  lemma {:induction false} BumpedAbsent(t: seq<Entry>, name: string)
    requires !Known(t, name)
    ensures Bumped(t, name) == t
  {
    if t != [] {
      assert t[0].name != name;
      assert !Known(t[1..], name) by {
        forall j | 0 <= j < |t[1..]| ensures t[1..][j].name != name {
          assert t[1..][j] == t[j + 1];
        }
      }
      BumpedAbsent(t[1..], name);
      assert [t[0]] + t[1..] == t;
    }
  }

  /** Summing after one increment: one more exactly when the name is in the table. */
  lemma {:induction false} SumBumped(t: seq<Entry>, name: string)
    ensures Sum(Bumped(t, name)) == Sum(t) + (if Known(t, name) then 1 else 0)
  {
    if t != [] {
      if t[0].name == name {
        assert Known(t, name) by { assert t[0].name == name; }
        assert Bumped(t, name)[1..] == t[1..];
      } else {
        SumBumped(t[1..], name);
        assert Known(t, name) <==> Known(t[1..], name) by {
          if Known(t, name) {
            var j :| 0 <= j < |t| && t[j].name == name;
            assert t[1..][j - 1] == t[j];
          }
          if Known(t[1..], name) {
            var j :| 0 <= j < |t[1..]| && t[1..][j].name == name;
            assert t[j + 1] == t[1..][j];
          }
        }
        assert Bumped(t, name)[1..] == Bumped(t[1..], name);
      }
    }
  }

  /** Incrementing the name of a category of a well-formed table adds one to that category's record. */
  lemma BumpedCategoryAt(t: seq<Entry>, s: Shape)
    requires WellFormed(t)
    ensures Bumped(t, CategoryName(s)) == t[Index(s) := t[Index(s)].(count := t[Index(s)].count + 1)]
  {
    CategoryNamesInjective();
    BumpedFirstMatch(t, CategoryName(s), Index(s));
  }

  /** The same increment keeps the table well formed and adds one to its sum. */
  lemma {:induction false} BumpedCategory(t: seq<Entry>, s: Shape)
    requires WellFormed(t)
    ensures Bumped(t, CategoryName(s)) == t[Index(s) := t[Index(s)].(count := t[Index(s)].count + 1)]
    ensures WellFormed(Bumped(t, CategoryName(s)))
    ensures Sum(Bumped(t, CategoryName(s))) == Sum(t) + 1
  {
    BumpedCategoryAt(t, s);
    assert Known(t, CategoryName(s)) by { assert t[Index(s)].name == CategoryName(s); }
    SumBumped(t, CategoryName(s));
  }

  /** The table object of one request. The list itself is never replaced; its records are. */
  class ShapeTable {
    const shapes: array<Entry>

    /** A fresh table holding the five categories at zero. */
    constructor ()
      ensures fresh(shapes)
      ensures shapes[..] == Initial()
    {
      var a := new Entry[5](k requires 0 <= k < 5 => Initial()[k]);
      shapes := a;
    }

    /** Adds one to the first record named `name`; a name not in the table changes nothing. */
    method Increment(name: string)
      modifies shapes
      ensures shapes[..] == Bumped(old(shapes[..]), name)
    {
      var i := 0;
      while i < shapes.Length
        invariant 0 <= i <= shapes.Length
        invariant shapes[..] == old(shapes[..])
        invariant forall j :: 0 <= j < i ==> shapes[j].name != name
      {
        if shapes[i].name == name {
          shapes[i] := shapes[i].(count := shapes[i].count + 1);
          BumpedFirstMatch(old(shapes[..]), name, i);
          break;
        }
        i := i + 1;
      }
      if i == shapes.Length {
        BumpedAbsent(old(shapes[..]), name);
      }
    }
  }
}
