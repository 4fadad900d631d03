/** The `song_id,time` tables the whole program passes around, the exceptions its
    pandas and service calls raise, and the table operations it uses: boolean-mask
    filters (`df[df.time <= x]`, `df[df.song_id != id]`), the `song_id` column and
    `drop_duplicates()`. A table is a sequence of rows; the pandas index is not
    modelled. */
module Tables {

  /** One row of a `song_id,time` table: a catalog id and a duration in seconds. */
  datatype Track = Track(id: string, time: real)

  datatype Option<T> = None | Some(value: T)

  /** The exceptions the modelled code can raise. */
  datatype Error =
    | NoObjectsToConcatenate      // `pd.concat([])` raises ValueError
    | NoAttributeIsEmpty          // `len(df).isempty()`: an int has no such attribute
    | UnboundLocal(name: string)  // a local variable read before any assignment
    | AmbiguousTruthValue         // `if df == None:` on a DataFrame raises ValueError
    | MissingKey(key: string)     // a dictionary lookup raises KeyError
    | IndexOutOfRange             // a list index past the end raises IndexError
    | NotANumber(key: string)     // arithmetic on a value that is not a number
    | ServiceError                // a call into the catalog service failed

  datatype Result<T> = Success(value: T) | Failure(error: Error)

  /** The result of an operation that returns nothing. */
  datatype Outcome = Pass | Fail(error: Error)

  /** `s[s.time <= bound]`: the rows no longer than `bound`, in order. */
  function AtMost(s: seq<Track>, bound: real): (r: seq<Track>)
    ensures |r| <= |s|
  {
    if s == [] then []
    else (if s[0].time <= bound then [s[0]] else []) + AtMost(s[1..], bound)
  }

  /** `s[s.song_id != id]`: every row carrying `id` dropped, the others in order. */
  function WithoutId(s: seq<Track>, id: string): (r: seq<Track>)
    ensures |r| <= |s|
  {
    if s == [] then []
    else (if s[0].id != id then [s[0]] else []) + WithoutId(s[1..], id)
  }

  /** The rows `AtMost` keeps are exactly the rows within the bound. */
  lemma {:induction false} AtMostMembers(s: seq<Track>, bound: real)
    ensures forall t :: t in AtMost(s, bound) <==> t in s && t.time <= bound
  {
    if s != [] {
      AtMostMembers(s[1..], bound);
      assert forall t :: t in s <==> t == s[0] || t in s[1..];
    }
  }

  /** The rows `WithoutId` keeps are exactly the rows with another id. */
  lemma {:induction false} WithoutIdMembers(s: seq<Track>, id: string)
    ensures forall t :: t in WithoutId(s, id) <==> t in s && t.id != id
  {
    if s != [] {
      WithoutIdMembers(s[1..], id);
      assert forall t :: t in s <==> t == s[0] || t in s[1..];
    }
  }

  /** Dropping an id that occurs drops at least one row. */
  lemma {:induction false} WithoutIdShrinks(s: seq<Track>, x: Track)
    requires x in s
    ensures |WithoutId(s, x.id)| < |s|
  {
    if s[0] != x {
      WithoutIdShrinks(s[1..], x);
    }
  }

  /** The rows whose id is not in `ids`, in order. */
  function WithoutIds(s: seq<Track>, ids: set<string>): (r: seq<Track>)
    ensures |r| <= |s|
  {
    if s == [] then []
    else (if s[0].id !in ids then [s[0]] else []) + WithoutIds(s[1..], ids)
  }

  /** The rows `WithoutIds` keeps are exactly the rows whose id is not in `ids`. */
  lemma {:induction false} WithoutIdsMembers(s: seq<Track>, ids: set<string>)
    ensures forall t :: t in WithoutIds(s, ids) <==> t in s && t.id !in ids
  {
    if s != [] {
      WithoutIdsMembers(s[1..], ids);
      assert forall t :: t in s <==> t == s[0] || t in s[1..];
    }
  }

  /** The `song_id` column, in row order (`df.song_id.tolist()`). */
  function Ids(s: seq<Track>): seq<string>
  {
    seq(|s|, i requires 0 <= i < |s| => s[i].id)
  }

  /** The set of ids occurring in a table. */
  function IdSet(s: seq<Track>): set<string>
  {
    set t | t in s :: t.id
  }

  /** The total duration of a table. */
  function Sum(s: seq<Track>): real
  {
    if s == [] then 0.0 else s[0].time + Sum(s[1..])
  }

  /** No id occurs on two rows. */
  predicate DistinctIds(s: seq<Track>)
  {
    forall i, j :: 0 <= i < j < |s| ==> s[i].id != s[j].id
  }

  /** No row occurs twice. */
  predicate NoDuplicates(s: seq<Track>)
  {
    forall i, j :: 0 <= i < j < |s| ==> s[i] != s[j]
  }

  /** The concatenation of a list of tables. */
  function Flatten(ts: seq<seq<Track>>): seq<Track>
  {
    if ts == [] then [] else Flatten(ts[..|ts| - 1]) + ts[|ts| - 1]
  }

  /** `drop_duplicates()`: a row is kept unless an identical row came before it. */
  function Dedup(s: seq<Track>): seq<Track>
  {
    if s == [] then []
    else
      var init := s[..|s| - 1];
      if s[|s| - 1] in init then Dedup(init) else Dedup(init) + [s[|s| - 1]]
  }

  /** The position of the first occurrence of `x` in `s`. */
  function FirstIndex(s: seq<Track>, x: Track): (i: nat)
    requires x in s
    ensures i < |s| && s[i] == x && x !in s[..i]
  {
    if s[0] == x then 0
    else
      var j := FirstIndex(s[1..], x);
      assert s[1..][..j] == s[1..j + 1];
      assert s[..j + 1] == [s[0]] + s[1..j + 1];
      j + 1
  }

  lemma FirstIndexUnique(s: seq<Track>, x: Track, i: nat)
    requires i < |s| && s[i] == x && x !in s[..i]
    ensures x in s && FirstIndex(s, x) == i
  {
    var f := FirstIndex(s, x);
  }

  /** drop_duplicates keeps exactly the rows of its input, once each, in the order
      of their first occurrences. */
  lemma {:induction false} DedupKeepsFirstOccurrences(s: seq<Track>)
    ensures forall t :: t in Dedup(s) <==> t in s
    ensures NoDuplicates(Dedup(s))
    ensures forall i, j :: 0 <= i < j < |Dedup(s)| ==>
              Dedup(s)[i] in s && Dedup(s)[j] in s &&
              FirstIndex(s, Dedup(s)[i]) < FirstIndex(s, Dedup(s)[j])
  {
    if s != [] {
      var init, y := s[..|s| - 1], s[|s| - 1];
      assert s == init + [y];
      DedupKeepsFirstOccurrences(init);
      var d := Dedup(init);
      forall t | t in init
        ensures FirstIndex(s, t) == FirstIndex(init, t)
      {
        var f := FirstIndex(init, t);
        assert s[..f] == init[..f];
        FirstIndexUnique(s, t, f);
      }
      if y !in init {
        assert s[..|init|] == init;
        FirstIndexUnique(s, y, |init|);
        assert Dedup(s) == d + [y];
        forall i | 0 <= i < |d|
          ensures FirstIndex(s, d[i]) < FirstIndex(s, y)
        {
          assert d[i] in init;
        }
      }
    }
  }

  /** A row of a concatenation is a row of one of the parts, and conversely. */
  lemma {:induction false} FlattenMembers(ts: seq<seq<Track>>)
    ensures forall t :: t in Flatten(ts) <==> exists j :: 0 <= j < |ts| && t in ts[j]
  {
    if ts != [] {
      var init := ts[..|ts| - 1];
      FlattenMembers(init);
      assert forall j :: 0 <= j < |init| ==> init[j] == ts[j];
    }
  }

  lemma {:induction false} FlattenAppend(ts: seq<seq<Track>>, t: seq<Track>)
    ensures Flatten(ts + [t]) == Flatten(ts) + t
  {
    assert (ts + [t])[..|ts|] == ts;
  }

  lemma {:induction false} SumCons(x: Track, s: seq<Track>)
    ensures Sum([x] + s) == x.time + Sum(s)
  {
    assert ([x] + s)[1..] == s;
  }

  /** Filtering twice by duration is filtering once by the smaller bound. */
  lemma {:induction false} AtMostAtMost(s: seq<Track>, a: real, b: real)
    requires b <= a
    ensures AtMost(AtMost(s, a), b) == AtMost(s, b)
  {
    if s != [] {
      AtMostAtMost(s[1..], a, b);
      var head := if s[0].time <= a then [s[0]] else [];
      assert AtMost(s, a) == head + AtMost(s[1..], a);
      AtMostConcat(head, AtMost(s[1..], a), b);
    }
  }

  lemma {:induction false} AtMostConcat(s: seq<Track>, u: seq<Track>, b: real)
    ensures AtMost(s + u, b) == AtMost(s, b) + AtMost(u, b)
  {
    if s != [] {
      assert (s + u)[1..] == s[1..] + u;
      AtMostConcat(s[1..], u, b);
    } else {
      assert s + u == u;
    }
  }

  /** A bound every row meets filters nothing out. */
  lemma {:induction false} AtMostKeepsAll(s: seq<Track>, a: real)
    requires forall t :: t in s ==> t.time <= a
    ensures AtMost(s, a) == s
  {
    if s != [] {
      assert forall t :: t in s[1..] ==> t in s;
      AtMostKeepsAll(s[1..], a);
      assert s == [s[0]] + s[1..];
    }
  }

  /** Filtering out an id and filtering by duration commute. */
  lemma {:induction false} AtMostWithoutId(s: seq<Track>, b: real, id: string)
    ensures WithoutId(AtMost(s, b), id) == AtMost(WithoutId(s, id), b)
  {
    if s != [] {
      AtMostWithoutId(s[1..], b, id);
      var head := if s[0].time <= b then [s[0]] else [];
      var keep := if s[0].id != id then [s[0]] else [];
      WithoutIdConcat(head, AtMost(s[1..], b), id);
      AtMostConcat(keep, WithoutId(s[1..], id), b);
    }
  }

  lemma {:induction false} WithoutIdConcat(s: seq<Track>, u: seq<Track>, id: string)
    ensures WithoutId(s + u, id) == WithoutId(s, id) + WithoutId(u, id)
  {
    if s != [] {
      assert (s + u)[1..] == s[1..] + u;
      WithoutIdConcat(s[1..], u, id);
    } else {
      assert s + u == u;
    }
  }

  /** Dropping one id and then a set of ids is dropping their union. */
  lemma {:induction false} WithoutIdThenIds(s: seq<Track>, id: string, ids: set<string>)
    ensures WithoutIds(WithoutId(s, id), ids) == WithoutIds(s, {id} + ids)
  {
    if s != [] {
      WithoutIdThenIds(s[1..], id, ids);
      var keep := if s[0].id != id then [s[0]] else [];
      WithoutIdsConcat(keep, WithoutId(s[1..], id), ids);
    }
  }

  lemma {:induction false} WithoutIdsConcat(s: seq<Track>, u: seq<Track>, ids: set<string>)
    ensures WithoutIds(s + u, ids) == WithoutIds(s, ids) + WithoutIds(u, ids)
  {
    if s != [] {
      var keep := if s[0].id !in ids then [s[0]] else [];
      assert (s + u)[0] == s[0];
      assert (s + u)[1..] == s[1..] + u;
      assert WithoutIds(s + u, ids) == keep + WithoutIds(s[1..] + u, ids);
      WithoutIdsConcat(s[1..], u, ids);
    } else {
      assert s + u == u;
    }
  }

  /** The tables of a list of parts computed one after the other, each of which may
      have raised: the first exception stops the loop. */
  function Gathered(parts: seq<Result<seq<Track>>>): Result<seq<seq<Track>>>
  {
    if parts == [] then Success([])
    else
      match Gathered(parts[..|parts| - 1])
      case Failure(e) => Failure(e)
      case Success(vs) =>
        match parts[|parts| - 1]
        case Failure(e) => Failure(e)
        case Success(v) => Success(vs + [v])
  }

  /** `pd.concat` over the parts a loop collected: the first exception a part raised,
      else the concatenation; `pd.concat([])` raises. */
  function ConcatAll(parts: seq<Result<seq<Track>>>): Result<seq<Track>>
  {
    match Gathered(parts)
    case Failure(e) => Failure(e)
    case Success(vs) => if vs == [] then Failure(NoObjectsToConcatenate) else Success(Flatten(vs))
  }

  /** Gathering succeeds exactly when every part does, and then keeps every part's
      table, in order. */
  lemma {:induction false} GatheredSuccess(parts: seq<Result<seq<Track>>>)
    ensures Gathered(parts).Success? <==> forall j :: 0 <= j < |parts| ==> parts[j].Success?
    ensures Gathered(parts).Success? ==>
              |Gathered(parts).value| == |parts| &&
              forall j :: 0 <= j < |parts| ==> Gathered(parts).value[j] == parts[j].value
  {
    if parts != [] {
      var init := parts[..|parts| - 1];
      GatheredSuccess(init);
      assert forall j :: 0 <= j < |init| ==> init[j] == parts[j];
    }
  }

  /** When some part raises, the whole gathering raises the first such exception. */
  lemma {:induction false} GatheredFailure(parts: seq<Result<seq<Track>>>, j: nat)
    requires j < |parts| && parts[j].Failure?
    requires forall i :: 0 <= i < j ==> parts[i].Success?
    ensures Gathered(parts) == Failure(parts[j].error)
  {
    var init := parts[..|parts| - 1];
    if j < |init| {
      GatheredFailure(init, j);
    } else {
      GatheredSuccess(init);
    }
  }

  /** Gathering one more part: the loop's step. */
  lemma GatheredSnoc(parts: seq<Result<seq<Track>>>, part: Result<seq<Track>>)
    ensures Gathered(parts + [part]) ==
      match Gathered(parts)
      case Failure(e) => Failure(e)
      case Success(vs) => (match part case Failure(e) => Failure(e) case Success(v) => Success(vs + [v]))
  {
    assert (parts + [part])[..|parts|] == parts;
  }

  /** `pd.concat` over the parts succeeds exactly when there is at least one part and
      none raised; it then holds every part's rows in order. */
  lemma ConcatAllSuccess(parts: seq<Result<seq<Track>>>)
    ensures ConcatAll(parts).Success? <==>
              parts != [] && forall j :: 0 <= j < |parts| ==> parts[j].Success?
    ensures ConcatAll(parts).Success? ==>
              ConcatAll(parts).value == Flatten(seq(|parts|, j requires 0 <= j < |parts| => parts[j].value))
  {
    GatheredSuccess(parts);
    if Gathered(parts).Success? {
      assert Gathered(parts).value == seq(|parts|, j requires 0 <= j < |parts| => parts[j].value);
    }
  }
}
