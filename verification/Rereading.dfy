/** Printing a JSON value and reading it back with a decoder that keeps numbers in a type
    of its own: everything comes back but the numbers, which the decoder may round or
    refuse. */
module Rereading {
  import opened Json

  /** What a decoder makes of one number; None when it cannot hold it. */
  type Reader = Json -> Option<Json>

  predicate IsNumber(j: Json) {
    j.Int? || j.Decimal?
  }

  /** The decoder can hold every number of the value. */
  predicate Readable(read: Reader, j: Json)
    decreases j
  {
    match j
    case Arr(items) => forall x | x in items :: Readable(read, x)
    case Obj(m) => forall k | k in m :: Readable(read, m[k])
    case _ => IsNumber(j) ==> read(j).Some? && IsNumber(read(j).value)
  }

  /** The value as it is read back. */
  function Reread(read: Reader, j: Json): (r: Json)
    requires Readable(read, j)
    decreases j
  {
    match j
    case Arr(items) => Arr(seq(|items|, i requires 0 <= i < |items| => Reread(read, items[i])))
    case Obj(m) => Obj(map k | k in m :: Reread(read, m[k]))
    case _ => if IsNumber(j) then read(j).value else j
  }

  /** Every number of the value is read back as it was. */
  predicate Portable(read: Reader, j: Json)
    decreases j
  {
    match j
    case Arr(items) => forall x | x in items :: Portable(read, x)
    case Obj(m) => forall k | k in m :: Portable(read, m[k])
    case _ => IsNumber(j) ==> read(j) == Some(j)
  }

  /** A value is read back unchanged exactly when its numbers are. */
  lemma {:induction false} RereadIff(read: Reader, j: Json)
    ensures Readable(read, j) && Reread(read, j) == j <==> Portable(read, j)
    decreases j
  {
    match j
    case Arr(items) =>
      forall i | 0 <= i < |items|
        ensures Readable(read, items[i]) && Reread(read, items[i]) == items[i] <==> Portable(read, items[i])
      {
        RereadIff(read, items[i]);
      }
      if Readable(read, j) && Reread(read, j) == j {
        forall i | 0 <= i < |items| ensures Portable(read, items[i]) {
          assert Reread(read, j).items[i] == items[i];
        }
      }
    case Obj(m) =>
      forall k | k in m
        ensures Readable(read, m[k]) && Reread(read, m[k]) == m[k] <==> Portable(read, m[k])
      {
        RereadIff(read, m[k]);
      }
      if Readable(read, j) && Reread(read, j) == j {
        forall k | k in m ensures Portable(read, m[k]) {
          assert Reread(read, j).members[k] == m[k];
        }
      }
    case _ =>
  }

  /** Reading back twice is reading back once, for a decoder that keeps what it made. */
  lemma {:induction false} RereadSettles(read: Reader, j: Json)
    requires Readable(read, j)
    requires forall x :: read(x).Some? && IsNumber(read(x).value) ==> read(read(x).value) == read(x)
    ensures Portable(read, Reread(read, j))
    decreases j
  {
    match j
    case Arr(items) =>
      forall i | 0 <= i < |items| ensures Portable(read, Reread(read, items[i])) {
        RereadSettles(read, items[i]);
      }
    case Obj(m) =>
      forall k | k in m ensures Portable(read, Reread(read, m[k])) {
        RereadSettles(read, m[k]);
      }
    case _ =>
  }

  /** An object read back, or None when a number in it cannot be held. */
  function RereadObject(read: Reader, m: Members): Option<Members> {
    if Readable(read, Obj(m)) then Some(Reread(read, Obj(m)).members) else None
  }

  lemma ObjectIff(read: Reader, m: Members)
    ensures RereadObject(read, m) == Some(m) <==> Portable(read, Obj(m))
  {
    RereadIff(read, Obj(m));
  }

  lemma RereadMember(read: Reader, m: Members, k: string)
    requires Readable(read, Obj(m)) && k in m
    ensures Readable(read, m[k]) && Reread(read, Obj(m)).Obj? && Reread(read, Obj(m)).members.Keys == m.Keys
    ensures Reread(read, Obj(m)).members[k] == Reread(read, m[k])
  {
  }

  lemma RereadOne(read: Reader, k: string, v: Json)
    requires Readable(read, v)
    ensures RereadObject(read, map[k := v]) == Some(map[k := Reread(read, v)])
  {
    var m: Members := map[k := v];
    assert Readable(read, Obj(m));
    assert Reread(read, Obj(m)).members == map[k := Reread(read, v)];
  }
}
