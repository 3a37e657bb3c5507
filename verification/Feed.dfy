/** Cursor paging over the external ids of one connection. */
module Feed {
  import opened Base

  // ------------------------------------------------------------ order of ids

  /** Order of external ids, character by character. */
  predicate Less(a: string, b: string) {
    b != [] && (a == [] || a[0] < b[0] || (a[0] == b[0] && Less(a[1..], b[1..])))
  }

  lemma {:induction false} LessTransitive(a: string, b: string, c: string)
    requires Less(a, b) && Less(b, c)
    ensures Less(a, c)
  {
    if a != [] && a[0] == b[0] == c[0] {
      LessTransitive(a[1..], b[1..], c[1..]);
    }
  }

  lemma {:induction false} LessTotal(a: string, b: string)
    ensures Less(a, b) || Less(b, a) || a == b
  {
    if a != [] && b != [] && a[0] == b[0] {
      LessTotal(a[1..], b[1..]);
      assert a == [a[0]] + a[1..] && b == [b[0]] + b[1..];
    }
  }

  lemma {:induction false} LessIrreflexive(a: string)
    ensures !Less(a, a)
  {
    if a != [] { LessIrreflexive(a[1..]); }
  }

  /** The connection's mappings in the order of their ids; ids are unique. */
  predicate Ordered(ids: seq<string>) {
    forall i, j | 0 <= i < j < |ids| :: Less(ids[i], ids[j])
  }

  // --------------------------------------------------------------- one page

  /** `filter(external_id__gt=cursor)`. */
  function Later(ids: seq<string>, cursor: string): seq<string> {
    if ids == [] then []
    else if Less(cursor, ids[0]) then [ids[0]] + Later(ids[1..], cursor)
    else Later(ids[1..], cursor)
  }

  datatype Page = Page(companies: seq<string>, cursor: Option<string>, hasMore: bool)

  function FeedPage(ids: seq<string>, cursor: Option<string>, count: nat): Page {
    PageOf(Later(ids, if cursor.Some? then cursor.value else ""), count)
  }

  /** One mapping more than the page is fetched, to know whether there are more. */
  function PageOf(later: seq<string>, count: nat): Page {
    var mappings := if |later| <= count + 1 then later else later[..count + 1];
    var page := if |mappings| <= count then mappings else mappings[..count];
    var extra := if |mappings| <= count then [] else mappings[count..];
    Page(page, if extra != [] && page != [] then Some(page[|page| - 1]) else None, extra != [])
  }

  lemma PageShape(later: seq<string>, count: nat)
    requires count > 0
    ensures PageOf(later, count) ==
            if |later| <= count then Page(later, None, false)
            else Page(later[..count], Some(later[count - 1]), true)
  {
    if |later| > count + 1 {
      assert later[..count + 1][..count] == later[..count];
    }
  }

  lemma {:induction false} LaterMembers(ids: seq<string>, cursor: string)
    requires Ordered(ids)
    ensures Ordered(Later(ids, cursor))
    ensures forall x :: x in Later(ids, cursor) <==> (x in ids && Less(cursor, x))
  {
    if ids != [] {
      LaterMembers(ids[1..], cursor);
      var rest := Later(ids[1..], cursor);
      assert ids == [ids[0]] + ids[1..];
      forall j | 0 <= j < |rest|
        ensures Less(ids[0], rest[j])
      {
        assert rest[j] in rest;
        var k :| 0 <= k < |ids[1..]| && ids[1..][k] == rest[j];
        assert ids[k + 1] == rest[j];
      }
    }
  }

  lemma {:induction false} LaterAll(ids: seq<string>, cursor: string)
    requires forall x | x in ids :: Less(cursor, x)
    ensures Later(ids, cursor) == ids
  {
    if ids != [] {
      assert ids[0] in ids;
      LaterAll(ids[1..], cursor);
    }
  }

  lemma {:induction false} LaterNone(ids: seq<string>, cursor: string)
    requires forall x | x in ids :: !Less(cursor, x)
    ensures Later(ids, cursor) == []
  {
    if ids != [] {
      assert ids[0] in ids;
      LaterNone(ids[1..], cursor);
    }
  }

  lemma {:induction false} LaterConcat(a: seq<string>, b: seq<string>, cursor: string)
    ensures Later(a + b, cursor) == Later(a, cursor) + Later(b, cursor)
  {
    if a == [] {
      assert a + b == b;
    } else {
      LaterConcat(a[1..], b, cursor);
      assert (a + b)[1..] == a[1..] + b;
    }
  }

  /** Past its k-th id, an ordered list is its rest. */
  lemma LaterDrops(ids: seq<string>, k: nat)
    requires Ordered(ids) && 0 < k <= |ids|
    ensures Later(ids, ids[k - 1]) == ids[k..]
  {
    var cursor := ids[k - 1];
    assert ids == ids[..k] + ids[k..];
    forall x | x in ids[..k]
      ensures !Less(cursor, x)
    {
      var i :| 0 <= i < k && ids[i] == x;
      LessIrreflexive(cursor);
      if i < k - 1 && Less(cursor, x) { LessTransitive(x, cursor, x); LessIrreflexive(x); }
    }
    LaterNone(ids[..k], cursor);
    LaterAll(ids[k..], cursor);
    LaterConcat(ids[..k], ids[k..], cursor);
  }

  lemma {:induction false} LaterTwice(ids: seq<string>, c: string, d: string)
    requires Less(c, d)
    ensures Later(Later(ids, c), d) == Later(ids, d)
  {
    if ids != [] {
      LaterTwice(ids[1..], c, d);
      if Less(d, ids[0]) { LessTransitive(c, d, ids[0]); }
      if Less(c, ids[0]) {
        assert Later(ids, c)[1..] == Later(ids[1..], c);
      }
    }
  }

  // ----------------------------------------------------------- all the pages

  function Start(cursor: Option<string>): string {
    if cursor.Some? then cursor.value else ""
  }

  /** A page is a prefix of what is later than the cursor, and its cursor leads to the rest. */
  lemma PageIsPrefix(ids: seq<string>, cursor: Option<string>, count: nat)
    requires Ordered(ids) && count > 0
    ensures var page := FeedPage(ids, cursor, count); var later := Later(ids, Start(cursor));
            && Ordered(later) && (forall x :: x in later <==> x in ids && Less(Start(cursor), x))
            && page.companies == (if |later| <= count then later else later[..count])
            && (page.hasMore <==> page.cursor.Some?) && (page.hasMore <==> |later| > count)
            && (page.cursor.Some? ==>
                  && page.companies != [] && page.cursor.value == page.companies[|page.companies| - 1]
                  && Later(ids, page.cursor.value) == later[count..])
  {
    var later := Later(ids, Start(cursor));
    LaterMembers(ids, Start(cursor));
    PageShape(later, count);
    hide Less, Ordered, Later, PageOf;
    if |later| > count {
      var next := later[count - 1];
      assert next in later;
      LaterDrops(later, count);
      LaterTwice(ids, Start(cursor), next);
    }
  }

  /** The pages a client gets by following the cursor; it ends because the rest gets shorter. */
  function Follow(ids: seq<string>, cursor: Option<string>, count: nat): seq<string>
    requires Ordered(ids) && count > 0
    decreases |Later(ids, Start(cursor))|
  {
    var page := FeedPage(ids, cursor, count);
    PageIsPrefix(ids, cursor, count);
    if page.cursor.None? then page.companies else page.companies + Follow(ids, page.cursor, count)
  }

  lemma {:induction false} FollowIsLater(ids: seq<string>, cursor: Option<string>, count: nat)
    requires Ordered(ids) && count > 0
    ensures Follow(ids, cursor, count) == Later(ids, Start(cursor))
    decreases |Later(ids, Start(cursor))|
  {
    var page := FeedPage(ids, cursor, count);
    PageIsPrefix(ids, cursor, count);
    if page.cursor.Some? {
      FollowIsLater(ids, page.cursor, count);
      var later := Later(ids, Start(cursor));
      assert later == later[..count] + later[count..];
    }
  }

  /** From the start, for every page size, the pages are the whole list exactly if no id is empty. */
  lemma FeedListsEverything(ids: seq<string>, count: nat)
    requires Ordered(ids) && count > 0
    ensures Follow(ids, None, count) == ids <==> "" !in ids
  {
    FollowIsLater(ids, None, count);
    LaterMembers(ids, "");
    if "" !in ids {
      forall x | x in ids
        ensures Less("", x)
      {
        LessTotal("", x);
      }
      LaterAll(ids, "");
    } else if Follow(ids, None, count) == ids {
      LessIrreflexive("");
      assert false;
    }
  }

  /** A page size of zero would never get anywhere: it promises more and gives no cursor. */
  lemma EmptyPagesStall(ids: seq<string>, cursor: Option<string>)
    requires Later(ids, Start(cursor)) != []
    ensures FeedPage(ids, cursor, 0) == Page([], None, true)
  {
  }

  // -------------------------------------------------------- a changing table

  /** The pages when each request finds another table; None if the tables run out first. */
  function FollowChanges(tables: seq<seq<string>>, cursor: Option<string>, count: nat): Option<seq<string>>
    decreases |tables|
  {
    if tables == [] then None
    else
      var page := FeedPage(tables[0], cursor, count);
      if page.cursor.None? then Some(page.companies)
      else
        var rest := FollowChanges(tables[1..], page.cursor, count);
        if rest.None? then None else Some(page.companies + rest.value)
  }

  /** Mappings may come and go between requests: no id comes twice, and one that stays is listed. */
  lemma {:induction false} ChangingFeed(tables: seq<seq<string>>, cursor: Option<string>, count: nat, id: string)
    requires count > 0 && forall t | t in tables :: Ordered(t)
    requires FollowChanges(tables, cursor, count).Some?
    ensures var all := FollowChanges(tables, cursor, count).value;
            && Ordered(all) && (forall x | x in all :: Less(Start(cursor), x))
            && (Less(Start(cursor), id) && (forall t | t in tables :: id in t) ==> id in all)
    decreases |tables|
  {
    hide Less, Later, FeedPage;
    var table := tables[0];
    assert table in tables;
    var page := FeedPage(table, cursor, count);
    var later := Later(table, Start(cursor));
    PageIsPrefix(table, cursor, count);
    LaterMembers(table, Start(cursor));
    if page.cursor.Some? {
      var next := page.cursor.value;
      assert tables == [table] + tables[1..];
      ChangingFeed(tables[1..], page.cursor, count, id);
      var rest := FollowChanges(tables[1..], page.cursor, count).value;
      assert next in later;
      JoinOrdered(page.companies, rest);
      LessTotal(next, id);
      forall x | x in rest
        ensures Less(Start(cursor), x)
      {
        LessTransitive(Start(cursor), next, x);
      }
      if id in later && !Less(next, id) { UpToCursor(later, count, id); }
    }
  }

  lemma JoinOrdered(page: seq<string>, rest: seq<string>)
    requires page != [] && Ordered(page) && Ordered(rest) && forall x | x in rest :: Less(page[|page| - 1], x)
    ensures Ordered(page + rest)
  {
    var all := page + rest;
    forall i, j | 0 <= i < j < |all|
      ensures Less(all[i], all[j])
    {
      if i < |page| <= j {
        assert rest[j - |page|] in rest;
        if i < |page| - 1 { LessTransitive(page[i], page[|page| - 1], all[j]); }
      }
    }
  }

  lemma UpToCursor(later: seq<string>, count: nat, id: string)
    requires Ordered(later) && 0 < count < |later| && id in later && !Less(later[count - 1], id)
    ensures id in later[..count]
  {
    var i :| 0 <= i < |later| && later[i] == id;
    assert i < count;
    assert later[..count][i] == id;
  }
}
