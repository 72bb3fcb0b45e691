/** The cache tags of the data layer: queries provide tags, mutations invalidate tags, and a
    query is refetched when a mutation invalidates one of the tags it provides. The cache
    indexes provided tags by type and then by id used as an object key, so an id that is
    not a string is looked up by its text form. */
module CacheTags {
  import opened Wrappers

  /** A tag id as the code builds it: a string, or an object of a user id and a role. */
  datatype TagId = Str(s: string) | UserRoleArg(userId: string, role: string)

  datatype Tag = Tag(kind: string, id: TagId)

  /** The key a tag id is filed under, as a JavaScript property key: a string is its own
      key, and every object becomes the same text "[object Object]". */
  function Key(id: TagId): (k: string)
    ensures id.Str? ==> k == id.s
    ensures id.UserRoleArg? ==> k == "[object Object]"
  {
    match id
    case Str(s) => s
    case UserRoleArg(_, _) => "[object Object]"
  }

  /** Two tags name the same cache entry. */
  predicate SameEntry(a: Tag, b: Tag) {
    a.kind == b.kind && Key(a.id) == Key(b.id)
  }

  /** The cache entries a list of tags names: a type and a key each. */
  function Entries(tags: seq<Tag>): (r: set<(string, string)>)
    ensures forall i :: 0 <= i < |tags| ==> (tags[i].kind, Key(tags[i].id)) in r
    ensures forall x :: x in r ==> exists i :: 0 <= i < |tags| && x == (tags[i].kind, Key(tags[i].id))
  {
    set i | 0 <= i < |tags| :: (tags[i].kind, Key(tags[i].id))
  }

  lemma EntriesOfOne(a: Tag)
    ensures Entries([a]) == {(a.kind, Key(a.id))}
  {
    assert [a][0] == a;
  }

  lemma EntriesOfTwo(a: Tag, b: Tag)
    ensures Entries([a, b]) == {(a.kind, Key(a.id)), (b.kind, Key(b.id))}
  {
    assert [a, b][0] == a && [a, b][1] == b;
  }

  lemma EntriesConcat(a: seq<Tag>, b: seq<Tag>)
    ensures Entries(a + b) == Entries(a) + Entries(b)
  {
    forall x | x in Entries(a) + Entries(b) ensures x in Entries(a + b) {
      if x in Entries(a) {
        var i :| 0 <= i < |a| && x == (a[i].kind, Key(a[i].id));
        assert (a + b)[i] == a[i];
      } else {
        var i :| 0 <= i < |b| && x == (b[i].kind, Key(b[i].id));
        assert (a + b)[|a| + i] == b[i];
      }
    }
    forall x | x in Entries(a + b) ensures x in Entries(a) + Entries(b) {
      var i :| 0 <= i < |a + b| && x == ((a + b)[i].kind, Key((a + b)[i].id));
      if i < |a| {
        assert (a + b)[i] == a[i];
      } else {
        assert (a + b)[i] == b[i - |a|];
      }
    }
  }

  /** A mutation with these invalidated tags refetches a query that provided these tags. */
  predicate Invalidates(invalidated: seq<Tag>, provided: seq<Tag>) {
    exists i, j :: 0 <= i < |invalidated| && 0 <= j < |provided| && SameEntry(invalidated[i], provided[j])
  }

  /** A mutation refetches a query exactly when the two name a common cache entry. */
  lemma InvalidatesIffShared(invalidated: seq<Tag>, provided: seq<Tag>)
    ensures Invalidates(invalidated, provided) <==> Entries(invalidated) * Entries(provided) != {}
  {
    if Invalidates(invalidated, provided) {
      var i, j :| 0 <= i < |invalidated| && 0 <= j < |provided| && SameEntry(invalidated[i], provided[j]);
      assert (invalidated[i].kind, Key(invalidated[i].id)) in Entries(invalidated) * Entries(provided);
    }
    if Entries(invalidated) * Entries(provided) != {} {
      var x :| x in Entries(invalidated) * Entries(provided);
      var i :| 0 <= i < |invalidated| && x == (invalidated[i].kind, Key(invalidated[i].id));
      var j :| 0 <= j < |provided| && x == (provided[j].kind, Key(provided[j].id));
      assert SameEntry(invalidated[i], provided[j]);
    }
  }

  function ListTag(kind: string): Tag { Tag(kind, Str("LIST")) }

  /** `providesList(resultsWithIds, tagType)`: the list tag, then one tag per result id in
      order; a missing result array gives the list tag alone. */
  function ProvidesList(ids: Option<seq<string>>, kind: string): (r: seq<Tag>)
    ensures ids.None? ==> r == [ListTag(kind)]
    ensures ids.Some? ==> |r| == |ids.value| + 1
    ensures r[0] == ListTag(kind)
    ensures ids.Some? ==> forall i :: 0 <= i < |ids.value| ==> r[i + 1] == Tag(kind, Str(ids.value[i]))
  {
    if ids.None? then [ListTag(kind)]
    else [ListTag(kind)] + seq(|ids.value|, i requires 0 <= i < |ids.value| => Tag(kind, Str(ids.value[i])))
  }

  /** Whatever the results, a list query is refetched by anything that invalidates the list
      tag of its type. */
  lemma ListTagReachesList(invalidated: seq<Tag>, i: nat, ids: Option<seq<string>>, kind: string)
    requires i < |invalidated| && invalidated[i] == ListTag(kind)
    ensures Invalidates(invalidated, ProvidesList(ids, kind))
  {
    assert SameEntry(invalidated[i], ProvidesList(ids, kind)[0]);
  }

  /** A request as the endpoint builds it; parameters and bodies are passed through as they
      are and kept opaque here. */
  datatype Request = Request(httpMethod: string, url: string, params: Option<string>, body: Option<string>)

  /** Two suffixed tag ids of different stems differ. */
  lemma SuffixCancels(a: string, b: string, suffix: string)
    requires a + suffix == b + suffix
    ensures a == b
  {
    assert a == (a + suffix)[..|a|];
    assert b == (b + suffix)[..|b|];
  }

  /** A text between a fixed prefix and suffix is determined by the whole. */
  lemma AffixCancels(p: string, a: string, b: string, q: string)
    ensures p + a + q == p + b + q ==> a == b
  {
    if p + a + q == p + b + q {
      assert a == (p + a + q)[|p|..|p| + |a|];
      assert b == (p + b + q)[|p|..|p| + |b|];
    }
  }
}
