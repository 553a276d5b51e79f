/**
 * Teacher records as the endpoint delivers them, and the per-sex tally that
 * the component computes from them with an array reduce.
 */
module Docentes {

  /**
   * One element of the array payload. `sexo` holds the value of the record's
   * `sexo` field; a missing or non-string field is represented by any string
   * other than "M" and "F", since the source compares it with `===` only.
   */
  datatype Docente = Docente(claveiss: string, nombre: string, sexo: string, telefono: string)

  /** The `{ M, F }` accumulator of the reduce. */
  datatype GenderCount = GenderCount(M: nat, F: nat)

  /** The reduce's initial accumulator, also the component's initial `genderCount`. */
  const Zero: GenderCount := GenderCount(0, 0)

  /** The reducer callback: bump M for "M", F for "F", otherwise skip the record. */
  function Step(counts: GenderCount, docente: Docente): GenderCount
  {
    if docente.sexo == "M" then counts.(M := counts.M + 1)
    else if docente.sexo == "F" then counts.(F := counts.F + 1)
    else counts
  }

  /** `data.reduce(Step, counts)`: a left fold over the records. */
  function TallyFrom(counts: GenderCount, data: seq<Docente>): (r: GenderCount)
    ensures counts.M <= r.M && counts.F <= r.F
    ensures r.M + r.F <= counts.M + counts.F + |data|
    decreases |data|
  {
    if data == [] then counts else TallyFrom(Step(counts, data[0]), data[1..])
  }

  /** The tally of a payload, started from `{ M: 0, F: 0 }`. */
  function Tally(data: seq<Docente>): (r: GenderCount)
    ensures r.M + r.F <= |data|
  {
    TallyFrom(Zero, data)
  }

  /** Reference definition: the number of records whose `sexo` is exactly `s`. */
  function CountSexo(data: seq<Docente>, s: string): nat
  {
    if data == [] then 0
    else (if data[0].sexo == s then 1 else 0) + CountSexo(data[1..], s)
  }

  /** A record whose `sexo` is one of the two values the tally knows. */
  predicate Known(d: Docente)
  {
    d.sexo == "M" || d.sexo == "F"
  }

  /** Folding from any accumulator adds exactly the two reference counts to it. */
  lemma {:induction false} TallyFromCounts(counts: GenderCount, data: seq<Docente>)
    ensures TallyFrom(counts, data)
         == GenderCount(counts.M + CountSexo(data, "M"), counts.F + CountSexo(data, "F"))
    decreases |data|
  {
    if data != [] {
      TallyFromCounts(Step(counts, data[0]), data[1..]);
    }
  }

  /** The tally's M is the number of "M" records and its F the number of "F" records. */
  lemma TallyCounts(data: seq<Docente>)
    ensures Tally(data) == GenderCount(CountSexo(data, "M"), CountSexo(data, "F"))
  {
    TallyFromCounts(Zero, data);
  }

  /** The two counts never exceed the number of records, and reach it exactly when every record is known. */
  lemma {:induction false} CountKnownBound(data: seq<Docente>)
    ensures CountSexo(data, "M") + CountSexo(data, "F") <= |data|
    ensures CountSexo(data, "M") + CountSexo(data, "F") == |data|
        <==> forall i :: 0 <= i < |data| ==> Known(data[i])
  {
    if data != [] {
      var rest := data[1..];
      CountKnownBound(rest);
      if (forall i :: 0 <= i < |data| ==> Known(data[i])) {
        assert forall i :: 0 <= i < |rest| ==> Known(rest[i]) by {
          forall i | 0 <= i < |rest| ensures Known(rest[i]) {
            assert rest[i] == data[i + 1];
          }
        }
      } else if Known(data[0]) {
        var j :| 0 <= j < |data| && !Known(data[j]);
        assert j != 0;
        assert !Known(rest[j - 1]);
      }
    }
  }

  /** M + F equals the number of records exactly when every record's `sexo` is "M" or "F". */
  lemma TallyCoversAll(data: seq<Docente>)
    ensures Tally(data).M + Tally(data).F == |data|
        <==> forall i :: 0 <= i < |data| ==> Known(data[i])
  {
    TallyCounts(data);
    CountKnownBound(data);
  }

  /** Counting distributes over concatenation. */
  lemma {:induction false} CountConcat(a: seq<Docente>, b: seq<Docente>, s: string)
    ensures CountSexo(a + b, s) == CountSexo(a, s) + CountSexo(b, s)
  {
    if a == [] {
      assert a + b == b;
    } else {
      assert (a + b)[1..] == a[1..] + b;
      CountConcat(a[1..], b, s);
    }
  }

  /** Taking the element at `j` out of a sequence takes one copy of it out of its multiset. */
  lemma RemoveAtMultiset(b: seq<Docente>, j: nat)
    requires j < |b|
    ensures multiset(b[..j] + b[j + 1..]) == multiset(b) - multiset{b[j]}
  {
    assert b == b[..j] + [b[j]] + b[j + 1..];
  }

  /** Taking the element at `j` out of a sequence takes its contribution out of the count. */
  lemma RemoveAtCount(b: seq<Docente>, j: nat, s: string)
    requires j < |b|
    ensures CountSexo(b, s) == CountSexo(b[..j] + b[j + 1..], s) + (if b[j].sexo == s then 1 else 0)
  {
    assert b == b[..j] + ([b[j]] + b[j + 1..]);
    CountConcat(b[..j], [b[j]] + b[j + 1..], s);
    CountConcat([b[j]], b[j + 1..], s);
    CountConcat(b[..j], b[j + 1..], s);
  }

  /** Counting does not depend on the order of the records. */
  lemma {:induction false} CountPermutation(a: seq<Docente>, b: seq<Docente>, s: string)
    requires multiset(a) == multiset(b)
    ensures CountSexo(a, s) == CountSexo(b, s)
    decreases |a|
  {
    if a == [] {
      assert |b| == |multiset(b)| == 0;
    } else {
      assert a[0] in multiset(b);
      var j :| 0 <= j < |b| && b[j] == a[0];
      RemoveAtMultiset(a, 0);
      RemoveAtMultiset(b, j);
      assert a[..0] + a[1..] == a[1..];
      CountPermutation(a[1..], b[..j] + b[j + 1..], s);
      RemoveAtCount(b, j, s);
    }
  }

  /** The tally is order-independent: any permutation of the payload has the same tally. */
  lemma TallyPermutation(a: seq<Docente>, b: seq<Docente>)
    requires multiset(a) == multiset(b)
    ensures Tally(a) == Tally(b)
  {
    TallyCounts(a);
    TallyCounts(b);
    CountPermutation(a, b, "M");
    CountPermutation(a, b, "F");
  }

  /** Records with "M", "F", "M" and "X" tally to two M and one F; the "X" record is skipped. */
  lemma TallyExample(m1: Docente, f: Docente, m2: Docente, x: Docente)
    requires m1.sexo == "M" && f.sexo == "F" && m2.sexo == "M" && x.sexo == "X"
    ensures Tally([m1, f, m2, x]) == GenderCount(2, 1)
  {
    var data := [m1, f, m2, x];
    assert data[1..] == [f, m2, x] && [f, m2, x][1..] == [m2, x] && [m2, x][1..] == [x] && [x][1..] == [];
    calc {
      Tally(data);
      TallyFrom(GenderCount(1, 0), [f, m2, x]);
      TallyFrom(GenderCount(1, 1), [m2, x]);
      TallyFrom(GenderCount(2, 1), [x]);
      TallyFrom(GenderCount(2, 1), []);
    }
  }
}
