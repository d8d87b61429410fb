/** The register as a whole: replaying writes on many organizations, and a
    transaction's private overlay of it. */
module Register {
  import opened Sql
  import opened Subscriptions

  type Rows = map<nat, Subscription>

  /** One executed upsert: the organization and the proposed row. */
  datatype Write = Write(organization: nat, row: Subscription)

  function RowOf(rows: Rows, organization: nat): Option<Subscription> {
    if organization in rows then Some(rows[organization]) else None
  }

  function Apply(rows: Rows, w: Write): Rows {
    rows[w.organization := After(RowOf(rows, w.organization), w.row)]
  }

  function ReplayAll(rows: Rows, writes: seq<Write>): Rows {
    if writes == [] then rows
    else Apply(ReplayAll(rows, writes[..|writes| - 1]), writes[|writes| - 1])
  }

  /** The writes that concern one organization, in order. */
  function For(writes: seq<Write>, organization: nat): seq<Subscription> {
    if writes == [] then []
    else
      var n := |writes| - 1;
      For(writes[..n], organization) +
      if writes[n].organization == organization then [writes[n].row] else []
  }

  /** Organizations do not influence each other: each row is the replay of its
      own writes. */
  lemma {:induction false} ReplayPerOrganization(rows: Rows, writes: seq<Write>, organization: nat)
    ensures RowOf(ReplayAll(rows, writes), organization)
            == Replay(RowOf(rows, organization), For(writes, organization))
  {
    if writes != [] {
      var n := |writes| - 1;
      ReplayPerOrganization(rows, writes[..n], organization);
      var own := For(writes[..n], organization);
      assert (own + [writes[n].row])[..|own|] == own;
      assert own + [] == own;
    }
  }

  lemma {:induction false} ReplayConcat(rows: Rows, a: seq<Write>, b: seq<Write>)
    ensures ReplayAll(rows, a + b) == ReplayAll(ReplayAll(rows, a), b)
  {
    if b == [] {
      assert a + b == a;
    } else {
      var n := |b| - 1;
      assert (a + b)[..|a| + n] == a + b[..n];
      ReplayConcat(rows, a, b[..n]);
    }
  }

  lemma ReplayOne(rows: Rows, w: Write)
    ensures ReplayAll(rows, [w]) == Apply(rows, w)
  {
    assert [w][..0] == [];
  }

  // ------------------------------------------------------------------ overlays

  /** What an open transaction has executed, and the rows it left behind. It
      holds the row locks of the overlay's organizations. */
  datatype Tx = Tx(began: int, staged: seq<Write>, overlay: Rows)

  /** The overlay is what replaying the staged writes would do to the committed
      rows as they are now. */
  ghost predicate Serial(committed: Rows, tx: Tx) {
    && committed + tx.overlay == ReplayAll(committed, tx.staged)
    && forall w <- tx.staged :: w.organization in tx.overlay
  }

  function Stage(committed: Rows, tx: Tx, w: Write): Tx {
    tx.(staged := tx.staged + [w],
        overlay := tx.overlay[w.organization := After(RowOf(committed + tx.overlay, w.organization), w.row)])
  }

  lemma StageSerial(committed: Rows, tx: Tx, w: Write)
    requires Serial(committed, tx)
    ensures Serial(committed, Stage(committed, tx, w))
  {
    var next := Stage(committed, tx, w);
    assert next.staged[..|tx.staged|] == tx.staged;
    assert committed + next.overlay == Apply(committed + tx.overlay, w);
  }

  /** A commit by somebody else that leaves the locked organizations alone does
      not disturb an open transaction. */
  lemma OthersCommitSerial(committed: Rows, tx: Tx, published: Rows)
    requires Serial(committed, tx)
    requires published.Keys !! tx.overlay.Keys
    ensures Serial(committed + published, tx)
  {
    ReplayFrame(committed, tx.staged, published);
    assert committed + published + tx.overlay == committed + tx.overlay + published;
  }

  lemma UpdateFrame(rows: Rows, key: nat, row: Subscription, other: Rows)
    requires key !in other
    ensures (rows + other)[key := row] == rows[key := row] + other
  {
  }

  lemma {:induction false} ReplayFrame(rows: Rows, writes: seq<Write>, other: Rows)
    requires forall w <- writes :: w.organization !in other
    ensures ReplayAll(rows + other, writes) == ReplayAll(rows, writes) + other
  {
    if writes != [] {
      var n := |writes| - 1;
      var w := writes[n];
      assert w in writes && forall v <- writes[..n] :: v in writes;
      ReplayFrame(rows, writes[..n], other);
      var before := ReplayAll(rows, writes[..n]);
      assert RowOf(before + other, w.organization) == RowOf(before, w.organization);
      UpdateFrame(before, w.organization, After(RowOf(before, w.organization), w.row), other);
    }
  }
}
