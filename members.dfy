/** Room member lists: the insertion-ordered `{userId, user}` entries kept per room,
    and the filter that drops every entry of one connection. */
module Members {

  /** Connection ids and room ids are both plain strings on the wire. */
  type Id = string

  /** One `{userId, user}` record of a room's list; `user` is the client's opaque display value. */
  datatype Entry<P> = Entry(userId: Id, user: P)

  /** `list.filter(item => item.userId !== id)`: the entries of `list` that do not belong
      to connection `id`, in their original order. */
  function Without<P>(list: seq<Entry<P>>, id: Id): (r: seq<Entry<P>>)
    ensures |r| <= |list|
    ensures forall e :: e in r ==> e in list && e.userId != id
    ensures forall e :: e in list && e.userId != id ==> e in r
  {
    if list == [] then []
    else if list[0].userId == id then Without(list[1..], id)
    else [list[0]] + Without(list[1..], id)
  }

  /** True when some entry of `list` belongs to connection `id`. */
  predicate HasId<P>(list: seq<Entry<P>>, id: Id)
  {
    exists i :: 0 <= i < |list| && list[i].userId == id
  }

  /** No connection id occurs twice in `list`. */
  predicate DistinctIds<P>(list: seq<Entry<P>>)
  {
    forall i, j :: 0 <= i < j < |list| ==> list[i].userId != list[j].userId
  }

  /** `a` is `b` with some entries dropped and the rest kept in order. */
  ghost predicate IsSubsequence<T>(a: seq<T>, b: seq<T>)
    decreases |b|
  {
    if a == [] then true
    else if b == [] then false
    else if a[0] == b[0] then IsSubsequence(a[1..], b[1..])
    else IsSubsequence(a, b[1..])
  }

  /** The filter distributes over concatenation. */
  lemma {:induction false} WithoutAppend<P>(a: seq<Entry<P>>, b: seq<Entry<P>>, id: Id)
    ensures Without(a + b, id) == Without(a, id) + Without(b, id)
  {
    if a == [] {
      assert a + b == b;
    } else {
      assert (a + b)[1..] == a[1..] + b;
      WithoutAppend(a[1..], b, id);
    }
  }

  /** Filtering twice by the same id removes nothing more. */
  lemma {:induction false} WithoutIdempotent<P>(list: seq<Entry<P>>, id: Id)
    ensures Without(Without(list, id), id) == Without(list, id)
  {
    if list != [] {
      WithoutIdempotent(list[1..], id);
      if list[0].userId != id {
        var rest := Without(list[1..], id);
        assert ([list[0]] + rest)[1..] == rest;
      }
    }
  }

  /** The filter changes the list exactly when the list holds an entry of `id`. */
  lemma {:induction false} WithoutUnchanged<P>(list: seq<Entry<P>>, id: Id)
    ensures Without(list, id) == list <==> !HasId(list, id)
  {
    if list == [] {
    } else {
      WithoutUnchanged(list[1..], id);
      if list[0].userId == id {
        assert list[0] in list;
        assert |Without(list, id)| <= |list[1..]| < |list|;
      } else {
        var rest := Without(list[1..], id);
        assert HasId(list, id) <==> HasId(list[1..], id) by {
          if HasId(list, id) {
            var i :| 0 <= i < |list| && list[i].userId == id;
            assert list[1..][i - 1].userId == id;
          }
          if HasId(list[1..], id) {
            var i :| 0 <= i < |list[1..]| && list[1..][i].userId == id;
            assert list[i + 1].userId == id;
          }
        }
        if Without(list, id) == list {
          assert list[1..] == ([list[0]] + rest)[1..] == rest;
        }
      }
    }
  }

  /** The filter keeps the relative order of the entries it keeps. */
  lemma {:induction false} WithoutIsSubsequence<P>(list: seq<Entry<P>>, id: Id)
    ensures IsSubsequence(Without(list, id), list)
  {
    if list != [] {
      WithoutIsSubsequence(list[1..], id);
      var rest := Without(list[1..], id);
      if list[0].userId == id {
        SubsequenceOfTail(rest, list);
      } else {
        assert ([list[0]] + rest)[0] == list[0];
        assert ([list[0]] + rest)[1..] == rest;
      }
    }
  }

  /** Dropping the head of the longer sequence keeps a subsequence a subsequence. */
  lemma {:induction false} SubsequenceOfTail<T>(a: seq<T>, b: seq<T>)
    requires b != []
    requires IsSubsequence(a, b[1..])
    ensures IsSubsequence(a, b)
    decreases |b|, 0
  {
    if a != [] && a[0] == b[0] {
      SubsequenceDropHead(a, b[1..]);
    }
  }

  /** A subsequence with its first element removed is still a subsequence. */
  lemma {:induction false} SubsequenceDropHead<T>(a: seq<T>, b: seq<T>)
    requires a != []
    requires IsSubsequence(a, b)
    ensures IsSubsequence(a[1..], b)
    decreases |b|, 1
  {
    assert b != [];
    if a[0] == b[0] {
      SubsequenceOfTail(a[1..], b);
    } else {
      SubsequenceDropHead(a, b[1..]);
      SubsequenceOfTail(a[1..], b);
    }
  }

  /** The filter's multiset of entries: each entry of `id` disappears, every other entry
      keeps its multiplicity. */
  lemma {:induction false} WithoutMultiset<P>(list: seq<Entry<P>>, id: Id, e: Entry<P>)
    ensures multiset(Without(list, id))[e] == if e.userId == id then 0 else multiset(list)[e]
  {
    if list != [] {
      WithoutMultiset(list[1..], id, e);
      assert list == [list[0]] + list[1..];
    }
  }
}
