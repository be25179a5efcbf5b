/**
 Baseline recovery against the daemon core: what a chain of pages of one frozen
 snapshot seals, from whatever rows and whatever cursor it starts, and so
 exactly when pages asked for by an earlier recovery spoil a later one.
 */
module FamilyBaseline {
  import opened Ordered
  import opened SessionFamily
  import opened FamilyReplica
  import opened FamilyQuiet
  import FamilyChunks

  /** A page of the rows frozen at `snapshot`, as the core answers a request for the rows after `after`. */
  ghost predicate Answers(page: BaselinePage, freeze: Rows, snapshot: u64, after: Option<int>) {
    var ids := IdsAfter(freeze, after);
    var n := |page.sessions|;
    && page.snapshot == snapshot
    && n <= |ids| && page.sessions == ItemsOf(freeze, ids)[..n]
    && page.next == (if n == 0 then after else Some(ids[n - 1]))
    && (page.complete <==> n == |ids|)
  }

  /** The pages read one after another, each for the cursor the one before it left. */
  ghost predicate Chained(pages: seq<BaselinePage>, freeze: Rows, snapshot: u64, after: Option<int>)
    decreases |pages|
  {
    && pages != [] && Answers(pages[0], freeze, snapshot, after)
    && (if |pages| == 1 then pages[0].complete
        else !pages[0].complete && Chained(pages[1..], freeze, snapshot, pages[0].next))
  }

  function ReadPages(h: Hub, pages: seq<BaselinePage>): Hub
    decreases |pages|
  {
    if pages == [] then h else ReadPages(ApplyBaseline(h, PageRead(pages[0])), pages[1..])
  }

  /** One page adds its stretch of the freeze, and leaves the rest to the pages behind it. */
  lemma PageSplitsRows(base: Rows, page: BaselinePage, freeze: Rows, snapshot: u64, after: Option<int>)
    requires Answers(page, freeze, snapshot, after)
    ensures Ingest(base, page.sessions) + RowsAfter(freeze, page.next) == base + RowsAfter(freeze, after)
    ensures page.complete ==> RowsAfter(freeze, page.next) == map[]
  {
    var ids := IdsAfter(freeze, after);
    var n := |page.sessions|;
    if n == 0 {
      assert Ingest(base, page.sessions) == base;
    } else {
      PrefixSplitsRows(base, freeze, after, n);
    }
    if page.complete {
      NothingBehind(freeze, after, n);
    }
  }

  lemma NothingBehind(freeze: Rows, after: Option<int>, n: nat)
    requires n == |IdsAfter(freeze, after)|
    ensures RowsAfter(freeze, if n == 0 then after else Some(IdsAfter(freeze, after)[n - 1])) == map[]
  {
    var ids := IdsAfter(freeze, after);
    var rest := RowsAfter(freeze, if n == 0 then after else Some(ids[n - 1]));
    forall id ensures id !in rest {
      assert id in ids <==> id in freeze && !Passed(after, id);
      if n > 0 {
        FamilyChunks.IdsBehindPrefix(freeze, after, n, id);
      }
    }
    assert rest.Keys == {};
  }

  /** A whole chain of pages seals the recovery with its base rows and every frozen row after the first cursor. */
  lemma {:induction false} PagesSeal(h: Hub, pages: seq<BaselinePage>, freeze: Rows, snapshot: u64, after: Option<int>)
    requires Chained(pages, freeze, snapshot, after)
    ensures var h' := ReadPages(h, pages);
            && h'.projection == Projection(h.projection.rows + RowsAfter(freeze, after), Some(snapshot), true, false)
            && h'.recovery.None? && h'.bridge.startSequence == Some(snapshot) && h'.bridge.table == h.bridge.table
    decreases |pages|
  {
    hide Answers, RowsAfter, Ingest;
    var page := pages[0];
    AnsweredSnapshot(page, freeze, snapshot, after);
    PageSplitsRows(h.projection.rows, page, freeze, snapshot, after);
    var h1 := ApplyBaseline(h, PageRead(page));
    if |pages| == 1 {
      assert ReadPages(h, pages) == h1;
      assert h1.projection.rows + map[] == h1.projection.rows;
    } else {
      PagesSeal(h1, pages[1..], freeze, snapshot, page.next);
    }
  }

  lemma AnsweredSnapshot(page: BaselinePage, freeze: Rows, snapshot: u64, after: Option<int>)
    requires Answers(page, freeze, snapshot, after)
    ensures page.snapshot == snapshot
  {
  }

  /**
   What a chain seals is the freeze if and only if the rows it started from
   are all frozen rows, and hold every frozen row at or before its cursor.
   */
  lemma SealedRowsAreTheFreezeIff(h: Hub, pages: seq<BaselinePage>, freeze: Rows, snapshot: u64, after: Option<int>)
    requires Chained(pages, freeze, snapshot, after)
    ensures var rows := h.projection.rows;
            ReadPages(h, pages).projection.rows == freeze
            <==> && (forall id :: id in rows ==> id in freeze)
                 && (forall id :: id in freeze && Passed(after, id) ==> id in rows && rows[id] == freeze[id])
  {
    hide Chained, ReadPages;
    PagesSeal(h, pages, freeze, snapshot, after);
    MergedIsTheFreezeIff(h.projection.rows, freeze, after);
  }

  lemma MergedIsTheFreezeIff(rows: Rows, freeze: Rows, after: Option<int>)
    ensures rows + RowsAfter(freeze, after) == freeze
            <==> && (forall id :: id in rows ==> id in freeze)
                 && (forall id :: id in freeze && Passed(after, id) ==> id in rows && rows[id] == freeze[id])
  {
    var merged := rows + RowsAfter(freeze, after);
    if merged == freeze {
      forall id | id in rows ensures id in freeze { assert id in merged; }
      forall id | id in freeze && Passed(after, id) ensures id in rows && rows[id] == freeze[id] { assert id in merged; }
    }
    if (forall id :: id in rows ==> id in freeze)
       && (forall id :: id in freeze && Passed(after, id) ==> id in rows && rows[id] == freeze[id]) {
      assert merged.Keys == freeze.Keys;
    }
  }

  /** A recovery that starts from no rows and whose pages answer its own requests seals exactly the frozen rows. */
  lemma FreshPagesSealTheFreeze(h: Hub, pages: seq<BaselinePage>, freeze: Rows, snapshot: u64)
    requires h.recovery == Some(Recovery(None, None)) && h.projection.rows == map[]
    requires Chained(pages, freeze, snapshot, None)
    ensures var h' := ReadPages(h, pages);
            h'.projection == Projection(freeze, Some(snapshot), true, false) && h'.bridge.startSequence == Some(snapshot)
  {
    hide Chained, ReadPages;
    PagesSeal(h, pages, freeze, snapshot, None);
    SealedRowsAreTheFreezeIff(h, pages, freeze, snapshot, None);
  }

  /**
   A page asked for before the recovery started over, read once it is open: the
   recovery goes on from that page's cursor, and seals the frozen rows if and
   only if no frozen row lies at or before the cursor the page was asked for.
   */
  lemma StalePageSealsTheFreezeIff(h: Hub, pages: seq<BaselinePage>, freeze: Rows, snapshot: u64, stale: Option<int>)
    requires h.recovery == Some(Recovery(None, None)) && h.projection.rows == map[]
    requires Chained(pages, freeze, snapshot, stale)
    ensures var h' := ReadPages(h, pages);
            && h'.projection.complete && !h'.projection.gap
            && (h'.projection.rows == freeze <==> forall id :: id in freeze ==> !Passed(stale, id))
  {
    hide Chained, ReadPages;
    PagesSeal(h, pages, freeze, snapshot, stale);
    SealedRowsAreTheFreezeIff(h, pages, freeze, snapshot, stale);
  }

  lemma {:induction false} IngestedIds(sessions: seq<Item>, id: int)
    ensures id in Ingest(map[], sessions) <==> exists i :: 0 <= i < |sessions| && sessions[i].id == id
  {
    if sessions != [] {
      var n := |sessions| - 1;
      IngestedIds(sessions[..n], id);
      if id in Ingest(map[], sessions[..n]) {
        var i :| 0 <= i < n && sessions[..n][i].id == id;
        assert sessions[i].id == id;
      }
      if exists i :: 0 <= i < |sessions| && sessions[i].id == id {
        var i :| 0 <= i < |sessions| && sessions[i].id == id;
        assert i < n ==> sessions[..n][i].id == id;
      }
    }
  }

  /**
   The same page, incomplete, read while the gap pass is still pending: its rows
   outlive the passes that open the recovery, and the fresh chain behind it seals
   the frozen rows if and only if every session of the page is still among them.
   */
  lemma StrayPageSealsTheFreezeIff(h: Hub, stale: BaselinePage, open: Hub, pages: seq<BaselinePage>, freeze: Rows, snapshot: u64)
    requires h.bridge.needGapPass && h.recovery.None? && h.projection.rows == map[] && !stale.complete
    requires Framed(ApplyBaseline(h, PageRead(stale)), open) && open.recovery == Some(Recovery(None, None))
    requires Chained(pages, freeze, snapshot, None)
    ensures open.projection.rows == Ingest(map[], stale.sessions)
    ensures ReadPages(open, pages).projection.rows == freeze
            <==> forall i :: 0 <= i < |stale.sessions| ==> stale.sessions[i].id in freeze
  {
    hide Chained, ReadPages, Ingest, Quiet;
    var rows := Ingest(map[], stale.sessions);
    SealedRowsAreTheFreezeIff(open, pages, freeze, snapshot, None);
    forall id ensures id in rows <==> exists i :: 0 <= i < |stale.sessions| && stale.sessions[i].id == id {
      IngestedIds(stale.sessions, id);
    }
  }

  /** One session before the stale cursor and one after it: the sealed projection has lost the first. */
  lemma StalePageLosesARow(h: Hub, entity: Entity)
    requires h.recovery == Some(Recovery(None, None)) && h.projection.rows == map[]
    ensures var freeze: Rows := map[1 := entity, 2 := entity];
            var page := BaselinePage(7, [Item(2, entity)], Some(2), true);
            && Answers(page, freeze, 7, Some(1))
            && ReadPages(h, [page]).projection.complete && 1 !in ReadPages(h, [page]).projection.rows
  {
    var freeze: Rows := map[1 := entity, 2 := entity];
    var page := BaselinePage(7, [Item(2, entity)], Some(2), true);
    var ids := IdsAfter(freeze, Some(1));
    assert Beyond(freeze.Keys, Some(1)) == {2};
    assert |ids| == 1 && ids[0] in ids;
    assert ItemsOf(freeze, ids)[..1] == [Item(2, entity)];
    assert Ingest(map[], [Item(2, entity)][..0]) == map[];
  }
}
