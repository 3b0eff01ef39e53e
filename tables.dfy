/**
 * Resource tables and the "at least" filter primitive.
 *
 * A table (a pandas DataFrame in the system) is a sequence of rows; a row
 * maps column names to numbers. Filtering keeps rows by value and in their
 * original order: rows carry no key beyond their position.
 */
module Tables {

  type Row = map<string, real>

  /** One feasibility requirement: (attribute, comparator, threshold). */
  datatype Requirement = Requirement(attr: string, comparator: string, threshold: real)

  /** The only comparator the selection engine acts upon. */
  const SUP: string := "sup"

  /** `row[attr] >= value`, for a row that has the column. */
  predicate AtLeast(row: Row, attr: string, value: real)
  {
    attr in row && row[attr] >= value
  }

  /** `rows[rows[attr] >= value]`: the rows that meet the threshold, in order. */
  function KeepAtLeast(rows: seq<Row>, attr: string, value: real): (r: seq<Row>)
    ensures |r| <= |rows|
  {
    if rows == [] then []
    else (if AtLeast(rows[0], attr, value) then [rows[0]] else []) + KeepAtLeast(rows[1..], attr, value)
  }

  /** A requirement is satisfied by a row: a 'sup' requirement asks for at least
      the threshold, any other label asks nothing. */
  predicate Meets(row: Row, q: Requirement)
  {
    q.comparator == SUP ==> AtLeast(row, q.attr, q.threshold)
  }

  predicate MeetsAll(row: Row, reqs: seq<Requirement>)
  {
    forall j :: 0 <= j < |reqs| ==> Meets(row, reqs[j])
  }

  /** The view after one requirement: a 'sup' requirement is a threshold filter,
      any other label leaves the view as it is. */
  function Narrow(view: seq<Row>, q: Requirement): seq<Row>
  {
    if q.comparator == SUP then KeepAtLeast(view, q.attr, q.threshold) else view
  }

  /** The reference definition of a filtered view: the rows of `view` that meet
      every requirement of `reqs`, in their original order. */
  function Kept(view: seq<Row>, reqs: seq<Requirement>): seq<Row>
  {
    if view == [] then []
    else (if MeetsAll(view[0], reqs) then [view[0]] else []) + Kept(view[1..], reqs)
  }

  /** `a` is `b` with some rows left out, the others kept in order. */
  predicate Subseq(a: seq<Row>, b: seq<Row>)
    decreases |b|
  {
    if a == [] then true
    else if b == [] then false
    else (a[0] == b[0] && Subseq(a[1..], b[1..])) || Subseq(a, b[1..])
  }

  lemma SubseqCons(x: Row, a: seq<Row>, b: seq<Row>)
    requires Subseq(a, b)
    ensures Subseq([x] + a, [x] + b) && Subseq(a, [x] + b)
  {
    assert ([x] + a)[1..] == a;
    assert ([x] + b)[1..] == b;
  }

  lemma {:induction false} SubseqRefl(a: seq<Row>)
    ensures Subseq(a, a)
  {
    if a != [] { SubseqRefl(a[1..]); }
  }

  lemma {:induction false} SubseqTrans(a: seq<Row>, b: seq<Row>, c: seq<Row>)
    requires Subseq(a, b) && Subseq(b, c)
    ensures Subseq(a, c)
    decreases |c|
  {
    if a == [] {
    } else if a[0] == b[0] && Subseq(a[1..], b[1..]) {
      if b[0] == c[0] && Subseq(b[1..], c[1..]) {
        SubseqTrans(a[1..], b[1..], c[1..]);
      } else {
        SubseqTrans(a, b, c[1..]);
      }
    } else {
      if b[0] == c[0] && Subseq(b[1..], c[1..]) {
        SubseqTrans(a, b[1..], c[1..]);
      } else {
        SubseqTrans(a, b, c[1..]);
      }
    }
  }

  /** Exactly the rows meeting the threshold are kept, and the kept rows are a
      subsequence of the input. */
  lemma {:induction false} KeepAtLeastSpec(rows: seq<Row>, attr: string, value: real)
    ensures Subseq(KeepAtLeast(rows, attr, value), rows)
    ensures forall x :: x in KeepAtLeast(rows, attr, value) <==> x in rows && AtLeast(x, attr, value)
  {
    if rows != [] {
      KeepAtLeastSpec(rows[1..], attr, value);
      assert rows == [rows[0]] + rows[1..];
      SubseqCons(rows[0], KeepAtLeast(rows[1..], attr, value), rows[1..]);
      if AtLeast(rows[0], attr, value) {
        assert KeepAtLeast(rows, attr, value) == [rows[0]] + KeepAtLeast(rows[1..], attr, value);
      } else {
        assert KeepAtLeast(rows, attr, value) == KeepAtLeast(rows[1..], attr, value);
      }
    }
  }

  /** The two threshold filters commute: the surviving rows, and their order,
      do not depend on which filter runs first. */
  lemma {:induction false} KeepAtLeastCommute(rows: seq<Row>, a1: string, v1: real, a2: string, v2: real)
    ensures KeepAtLeast(KeepAtLeast(rows, a1, v1), a2, v2) == KeepAtLeast(KeepAtLeast(rows, a2, v2), a1, v1)
  {
    if rows != [] {
      KeepAtLeastCommute(rows[1..], a1, v1, a2, v2);
      var x := rows[0];
      var t1 := KeepAtLeast(rows[1..], a1, v1);
      var t2 := KeepAtLeast(rows[1..], a2, v2);
      if AtLeast(x, a1, v1) {
        assert KeepAtLeast(rows, a1, v1) == [x] + t1;
        assert KeepAtLeast([x] + t1, a2, v2) == (if AtLeast(x, a2, v2) then [x] else []) + KeepAtLeast(t1, a2, v2) by {
          assert ([x] + t1)[1..] == t1;
        }
      } else {
        assert KeepAtLeast(rows, a1, v1) == t1;
      }
      if AtLeast(x, a2, v2) {
        assert KeepAtLeast(rows, a2, v2) == [x] + t2;
        assert KeepAtLeast([x] + t2, a1, v1) == (if AtLeast(x, a1, v1) then [x] else []) + KeepAtLeast(t2, a1, v1) by {
          assert ([x] + t2)[1..] == t2;
        }
      } else {
        assert KeepAtLeast(rows, a2, v2) == t2;
      }
    }
  }

  /** Kept views: exactly the rows meeting every requirement, as a subsequence. */
  lemma {:induction false} KeptSpec(view: seq<Row>, reqs: seq<Requirement>)
    ensures Subseq(Kept(view, reqs), view)
    ensures |Kept(view, reqs)| <= |view|
    ensures forall x :: x in Kept(view, reqs) <==> x in view && MeetsAll(x, reqs)
  {
    if view != [] {
      KeptSpec(view[1..], reqs);
      assert view == [view[0]] + view[1..];
      SubseqCons(view[0], Kept(view[1..], reqs), view[1..]);
      if MeetsAll(view[0], reqs) {
        assert Kept(view, reqs) == [view[0]] + Kept(view[1..], reqs);
      } else {
        assert Kept(view, reqs) == Kept(view[1..], reqs);
      }
    }
  }

  /** Filtering an already filtered view changes nothing: the filter is a fixed point. */
  lemma {:induction false} KeptIdempotent(view: seq<Row>, reqs: seq<Requirement>)
    ensures Kept(Kept(view, reqs), reqs) == Kept(view, reqs)
  {
    if view != [] {
      KeptIdempotent(view[1..], reqs);
      var tail := Kept(view[1..], reqs);
      if MeetsAll(view[0], reqs) {
        assert Kept(view, reqs) == [view[0]] + tail;
        assert ([view[0]] + tail)[1..] == tail;
      } else {
        assert Kept(view, reqs) == tail;
      }
    }
  }

  /** Only the set of requirements matters: reordering or repeating them keeps
      the same rows. */
  lemma {:induction false} KeptReorder(view: seq<Row>, r1: seq<Requirement>, r2: seq<Requirement>)
    requires forall q :: q in r1 <==> q in r2
    ensures Kept(view, r1) == Kept(view, r2)
  {
    if view != [] {
      KeptReorder(view[1..], r1, r2);
      assert MeetsAll(view[0], r1) <==> MeetsAll(view[0], r2) by {
        if MeetsAll(view[0], r1) {
          forall j | 0 <= j < |r2| ensures Meets(view[0], r2[j]) {
            assert r2[j] in r2;
            var i :| 0 <= i < |r1| && r1[i] == r2[j];
          }
        }
        if MeetsAll(view[0], r2) {
          forall j | 0 <= j < |r1| ensures Meets(view[0], r1[j]) {
            assert r1[j] in r1;
            var i :| 0 <= i < |r2| && r2[i] == r1[j];
          }
        }
      }
    }
  }

  /** Applying the requirements one after the other, as the selection loop does,
      builds the reference view requirement by requirement. */
  lemma {:induction false} KeptSnoc(view: seq<Row>, reqs: seq<Requirement>, q: Requirement)
    ensures Kept(view, reqs + [q]) == Narrow(Kept(view, reqs), q)
  {
    if view != [] {
      KeptSnoc(view[1..], reqs, q);
      var x := view[0];
      assert MeetsAll(x, reqs + [q]) <==> MeetsAll(x, reqs) && Meets(x, q) by {
        assert forall j :: 0 <= j < |reqs| ==> (reqs + [q])[j] == reqs[j];
        assert (reqs + [q])[|reqs|] == q;
      }
      var tail := Kept(view[1..], reqs);
      if MeetsAll(x, reqs) {
        assert Kept(view, reqs) == [x] + tail;
        assert ([x] + tail)[1..] == tail;
      } else {
        assert Kept(view, reqs) == tail;
      }
    }
  }

  lemma KeptNoRequirements(view: seq<Row>)
    ensures Kept(view, []) == view
  {
    if view != [] {
      KeptNoRequirements(view[1..]);
      assert view == [view[0]] + view[1..];
    }
  }
}
