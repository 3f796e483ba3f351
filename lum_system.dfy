/** Assembly of the linear system `G X = B` of the Lu-Milios relaxation
    (`FillGB3D` of src/lum6Deuler.cc). Scan `k` of the graph owns the
    6-row block `k - 1` of the unknown vector; scan 0 is the reference and
    owns no block (its block index is -1). Each link `(from, to)` with
    statistic `C`, `CD` adds `C` to the diagonal blocks of both endpoints,
    `+CD` to the right-hand side of `from` and `-CD` to that of `to`, and
    writes `-C` into the two off-diagonal blocks between them. */
module LumSystem {
  import opened LinAlg

  /** A graph link between scans `from` and `to` (`Graph::getLink(i, 0)`
      and `Graph::getLink(i, 1)`). */
  datatype Link = Link(from: int, to: int)

  /** The pose graph: its number of scans and its links in order. */
  datatype Graph = Graph(nrScans: int, links: seq<Link>)

  /** Every link joins two scans of the graph. */
  ghost predicate ValidGraph(gr: Graph)
  {
    && gr.nrScans >= 1
    && forall i :: 0 <= i < |gr.links| ==>
         0 <= gr.links[i].from < gr.nrScans && 0 <= gr.links[i].to < gr.nrScans
  }

  /** The block of the unknown vector owned by scan `node`. */
  function BlockOf(node: int): (k: int)
    ensures node == 0 ==> k == -1
    ensures node >= 1 ==> k >= 0
  {
    node - 1
  }

  /** Row (or column) `r` lies in block `k`; no row lies in a negative block. */
  predicate InBlock(r: int, k: int)
  {
    k >= 0 && 6 * k <= r < 6 * k + 6
  }

  /** The value of `G[r, c]` after one link with information matrix `cab`
      has been entered, when it was `prev` before: the four block updates
      in the order the source performs them. */
  function LinkG(l: Link, cab: Mat6, r: int, c: int, prev: real): (g: real)
    ensures !InLinkBlocks(l, r, c) ==> g == prev
  {
    var a, b := BlockOf(l.from), BlockOf(l.to);
    var v1 := BlockAdd(a, a, cab, r, c, prev);
    var v2 := BlockAdd(b, b, cab, r, c, v1);
    var v3 := BlockSetNeg(a, b, cab, r, c, v2);
    BlockSetNeg(b, a, cab, r, c, v3)
  }

  /** The value of `B[r]` after one link with vector `cdab` has been entered. */
  function LinkB(l: Link, cdab: Vec6, r: int, prev: real): (b: real)
    ensures !InBlock(r, BlockOf(l.from)) && !InBlock(r, BlockOf(l.to)) ==> b == prev
  {
    var a, b := BlockOf(l.from), BlockOf(l.to);
    RowsAdd(b, cdab, -1.0, r, RowsAdd(a, cdab, 1.0, r, prev))
  }

  /** Entry `(r, c)` after block `(p, q)` has been incremented by `M`. */
  function BlockAdd(p: int, q: int, M: Mat6, r: int, c: int, prev: real): real
  {
    if InBlock(r, p) && InBlock(c, q) then prev + M[r - 6 * p][c - 6 * q] else prev
  }

  /** Entry `(r, c)` after block `(p, q)` has been assigned `-M`. */
  function BlockSetNeg(p: int, q: int, M: Mat6, r: int, c: int, prev: real): real
  {
    if InBlock(r, p) && InBlock(c, q) then -M[r - 6 * p][c - 6 * q] else prev
  }

  /** Entry `r` after the rows of block `p` have been incremented by `sign * v`. */
  function RowsAdd(p: int, v: Vec6, sign: real, r: int, prev: real): real
  {
    if InBlock(r, p) then prev + sign * v[r - 6 * p] else prev
  }

  /** `G[r, c]` after the first `k` links, starting from `g0`. */
  function GFill(links: seq<Link>, C: seq<Mat6>, k: nat, g0: real, r: int, c: int): real
    requires k <= |links| && k <= |C|
  {
    if k == 0 then g0 else LinkG(links[k - 1], C[k - 1], r, c, GFill(links, C, k - 1, g0, r, c))
  }

  /** `B[r]` after the first `k` links, starting from `b0`. */
  function BFill(links: seq<Link>, CD: seq<Vec6>, k: nat, b0: real, r: int): real
    requires k <= |links| && k <= |CD|
  {
    if k == 0 then b0 else LinkB(links[k - 1], CD[k - 1], r, BFill(links, CD, k - 1, b0, r))
  }

  /** The system matrix of a graph with `nrScans` scans, assembled from zero. */
  function AssembledG(gr: Graph, C: seq<Mat6>): (g: seq<seq<real>>)
    requires gr.nrScans >= 1 && |gr.links| <= |C|
    ensures IsSquare(g, 6 * (gr.nrScans - 1))
  {
    var dim := 6 * (gr.nrScans - 1);
    seq(dim, r => seq(dim, c => GFill(gr.links, C, |gr.links|, 0.0, r, c)))
  }

  /** The right-hand side of a graph with `nrScans` scans, assembled from zero. */
  function AssembledB(gr: Graph, CD: seq<Vec6>): (b: seq<real>)
    requires gr.nrScans >= 1 && |gr.links| <= |CD|
    ensures |b| == 6 * (gr.nrScans - 1)
  {
    seq(6 * (gr.nrScans - 1), r => BFill(gr.links, CD, |gr.links|, 0.0, r))
  }

  // ---------------------------------------------------------------------
  // Properties of the assembly

  /** The reference scan's block index is -1, and no row lies in it. */
  lemma ReferenceOwnsNoBlock(r: int)
    ensures BlockOf(0) == -1 && !InBlock(r, BlockOf(0))
  {
  }

  /** A link from the reference scan changes only the diagonal block of
      its other endpoint (by `+C`) and that endpoint's right-hand side (by
      `-CD`); symmetrically for a link to the reference scan. */
  lemma ReferenceEndpointContributesNothing(l: Link, cab: Mat6, cdab: Vec6, r: int, c: int, gPrev: real, bPrev: real)
    requires l.from == 0 || l.to == 0
    ensures var k := if l.from == 0 then BlockOf(l.to) else BlockOf(l.from);
      && LinkG(l, cab, r, c, gPrev) ==
           (if InBlock(r, k) && InBlock(c, k) then gPrev + cab[r - 6 * k][c - 6 * k] else gPrev)
      && LinkB(l, cdab, r, bPrev) ==
           (if !InBlock(r, k) then bPrev
            else if l.from == 0 then bPrev - cdab[r - 6 * k] else bPrev + cdab[r - 6 * k])
  {
  }

  /** Entry `(r, c)` lies in one of the four blocks a link writes: its row
      and its column each lie in the block of one of the two endpoints. */
  predicate InLinkBlocks(l: Link, r: int, c: int)
  {
    var a, b := BlockOf(l.from), BlockOf(l.to);
    (InBlock(r, a) || InBlock(r, b)) && (InBlock(c, a) || InBlock(c, b))
  }

  /** An entry of `G` outside the four blocks of the link, and a row of `B`
      outside both endpoint blocks, are left as they were. */
  lemma UntouchedOutsideEndpointBlocks(l: Link, cab: Mat6, cdab: Vec6, r: int, c: int, gPrev: real, bPrev: real)
    ensures !InLinkBlocks(l, r, c) ==> LinkG(l, cab, r, c, gPrev) == gPrev
    ensures !InBlock(r, BlockOf(l.from)) && !InBlock(r, BlockOf(l.to)) ==> LinkB(l, cdab, r, bPrev) == bPrev
  {
  }

  /** For a link between two distinct non-reference scans, the diagonal
      blocks of both endpoints accumulate `C`, the right-hand side of
      `from` gains `CD` and that of `to` loses it. */
  lemma DiagonalBlocksAccumulate(l: Link, cab: Mat6, cdab: Vec6, r: int, c: int, gPrev: real, bPrev: real)
    requires l.from >= 1 && l.to >= 1 && l.from != l.to
    ensures var a, b := BlockOf(l.from), BlockOf(l.to);
      && (InBlock(r, a) && InBlock(c, a) ==> LinkG(l, cab, r, c, gPrev) == gPrev + cab[r - 6 * a][c - 6 * a])
      && (InBlock(r, b) && InBlock(c, b) ==> LinkG(l, cab, r, c, gPrev) == gPrev + cab[r - 6 * b][c - 6 * b])
      && (InBlock(r, a) ==> LinkB(l, cdab, r, bPrev) == bPrev + cdab[r - 6 * a])
      && (InBlock(r, b) ==> LinkB(l, cdab, r, bPrev) == bPrev - cdab[r - 6 * b])
  {
  }

  /** The off-diagonal blocks between two non-reference endpoints are
      assigned `-C`, whatever they held before. */
  lemma OffDiagonalBlocksAssigned(l: Link, cab: Mat6, r: int, c: int, gPrev: real)
    requires l.from >= 1 && l.to >= 1
    ensures var a, b := BlockOf(l.from), BlockOf(l.to);
      && (InBlock(r, a) && InBlock(c, b) ==> LinkG(l, cab, r, c, gPrev) == -cab[r - 6 * a][c - 6 * b])
      && (InBlock(r, b) && InBlock(c, a) ==> LinkG(l, cab, r, c, gPrev) == -cab[r - 6 * b][c - 6 * a])
  {
  }

  /** Links `k .. n-1` that all leave entry `(r, c)` outside their blocks
      keep the value it had after the first `k` links. */
  lemma {:induction false} LaterLinksKeep(links: seq<Link>, C: seq<Mat6>, k: nat, n: nat, g0: real, r: int, c: int)
    requires k <= n <= |links| && n <= |C|
    requires forall i :: k <= i < n ==> !InLinkBlocks(links[i], r, c)
    ensures GFill(links, C, n, g0, r, c) == GFill(links, C, k, g0, r, c)
    decreases n
  {
    if n > k {
      LaterLinksKeep(links, C, k, n - 1, g0, r, c);
      UntouchedOutsideEndpointBlocks(links[n - 1], C[n - 1], Zero6, r, c, GFill(links, C, n - 1, g0, r, c), 0.0);
    }
  }

  /** A row lies in at most one block. */
  lemma SingleBlock(r: int, p: int, q: int)
    requires InBlock(r, p) && InBlock(r, q)
    ensures p == q
  {
  }

  /** So the last link between two distinct non-reference scans decides
      their off-diagonal block in the assembled `G`: the contributions of
      earlier links between the same pair are overwritten, not
      accumulated. Link `k - 1` is that last link: no later link joins the
      same two scans, in either direction. */
  lemma LastLinkDecidesOffDiagonal(links: seq<Link>, C: seq<Mat6>, k: nat, g0: real, r: int, c: int)
    requires 0 < k <= |links| <= |C|
    requires links[k - 1].from >= 1 && links[k - 1].to >= 1 && links[k - 1].from != links[k - 1].to
    requires forall i :: k <= i < |links| ==>
      !(links[i].from == links[k - 1].from && links[i].to == links[k - 1].to) &&
      !(links[i].from == links[k - 1].to && links[i].to == links[k - 1].from)
    requires InBlock(r, BlockOf(links[k - 1].from)) && InBlock(c, BlockOf(links[k - 1].to))
    ensures GFill(links, C, |links|, g0, r, c) ==
      -C[k - 1][r - 6 * BlockOf(links[k - 1].from)][c - 6 * BlockOf(links[k - 1].to)]
  {
    var l := links[k - 1];
    OffDiagonalBlocksAssigned(l, C[k - 1], r, c, GFill(links, C, k - 1, g0, r, c));
    forall i | k <= i < |links|
      ensures !InLinkBlocks(links[i], r, c)
    {
      LaterLinkAvoids(l, links[i], r, c);
    }
    LaterLinksKeep(links, C, k, |links|, g0, r, c);
  }

  /** A link between scans other than the pair of `l` writes no entry of
      the off-diagonal block `(from, to)` of `l`. */
  lemma LaterLinkAvoids(l: Link, m: Link, r: int, c: int)
    requires l.from >= 1 && l.to >= 1 && l.from != l.to
    requires !(m.from == l.from && m.to == l.to) && !(m.from == l.to && m.to == l.from)
    requires InBlock(r, BlockOf(l.from)) && InBlock(c, BlockOf(l.to))
    ensures !InLinkBlocks(m, r, c)
  {
    if InLinkBlocks(m, r, c) {
      var a, b := BlockOf(m.from), BlockOf(m.to);
      if InBlock(r, a) { SingleBlock(r, a, BlockOf(l.from)); } else { SingleBlock(r, b, BlockOf(l.from)); }
      if InBlock(c, a) { SingleBlock(c, a, BlockOf(l.to)); } else { SingleBlock(c, b, BlockOf(l.to)); }
      assert false;
    }
  }

  /** A link whose statistic is all zeros (a link without point pairs)
      leaves the right-hand side and the diagonal blocks as they were, but
      still clears the off-diagonal blocks between its endpoints. */
  lemma ZeroLinkEffect(l: Link, cab: Mat6, cdab: Vec6, r: int, c: int, gPrev: real, bPrev: real)
    requires IsZeroMat6(cab) && IsZeroVec6(cdab)
    ensures LinkB(l, cdab, r, bPrev) == bPrev
    ensures var a, b := BlockOf(l.from), BlockOf(l.to);
      LinkG(l, cab, r, c, gPrev) ==
        if (InBlock(r, a) && InBlock(c, b)) || (InBlock(r, b) && InBlock(c, a)) then 0.0 else gPrev
  {
  }

  /** One link preserves symmetry when its information matrix is symmetric. */
  lemma LinkGSymmetric(l: Link, cab: Mat6, r: int, c: int, prev: real)
    requires Symmetric6(cab)
    ensures LinkG(l, cab, r, c, prev) == LinkG(l, cab, c, r, prev)
  {
    var a, b := BlockOf(l.from), BlockOf(l.to);
    if InBlock(r, a) && InBlock(c, b) && InBlock(r, b) && InBlock(c, a) {
      assert a == b;
    }
  }

  /** If every information matrix is symmetric, the assembled `G` is
      symmetric whenever it starts from the same value at `(r, c)` and
      `(c, r)` (in the source it starts at zero). */
  lemma {:induction false} AssembledGSymmetric(links: seq<Link>, C: seq<Mat6>, k: nat, g0: real, r: int, c: int)
    requires k <= |links| && k <= |C|
    requires forall i :: 0 <= i < k ==> Symmetric6(C[i])
    ensures GFill(links, C, k, g0, r, c) == GFill(links, C, k, g0, c, r)
  {
    if k > 0 {
      AssembledGSymmetric(links, C, k - 1, g0, r, c);
      LinkGSymmetric(links[k - 1], C[k - 1], r, c, GFill(links, C, k - 1, g0, r, c));
    }
  }

  /** An entry lying outside the four blocks of every link keeps its
      starting value. */
  lemma AssembledGUntouched(links: seq<Link>, C: seq<Mat6>, k: nat, g0: real, r: int, c: int)
    requires k <= |links| && k <= |C|
    requires forall i :: 0 <= i < k ==> !InLinkBlocks(links[i], r, c)
    ensures GFill(links, C, k, g0, r, c) == g0
  {
    LaterLinksKeep(links, C, 0, k, g0, r, c);
  }

  /** A row of `B` outside both endpoint blocks of every link keeps its
      starting value. */
  lemma {:induction false} AssembledBUntouched(links: seq<Link>, CD: seq<Vec6>, k: nat, b0: real, r: int)
    requires k <= |links| && k <= |CD|
    requires forall i :: 0 <= i < k ==>
      !InBlock(r, BlockOf(links[i].from)) && !InBlock(r, BlockOf(links[i].to))
    ensures BFill(links, CD, k, b0, r) == b0
  {
    if k > 0 {
      AssembledBUntouched(links, CD, k - 1, b0, r);
    }
  }

  // ---------------------------------------------------------------------
  // The in-place assembly

  /** `G.SubMatrix(6p+1, 6p+6, 6q+1, 6q+6) += M`. */
  method AddBlock(G: array2<real>, p: int, q: int, M: Mat6)
    requires 0 <= p && 0 <= q && 6 * p + 6 <= G.Length0 && 6 * q + 6 <= G.Length1
    modifies G
    ensures forall r, c :: 0 <= r < G.Length0 && 0 <= c < G.Length1 ==>
      G[r, c] == BlockAdd(p, q, M, r, c, old(G[r, c]))
  {
    var i := 0;
    while i < 6
      invariant 0 <= i <= 6
      invariant forall r, c :: 0 <= r < G.Length0 && 0 <= c < G.Length1 ==>
        G[r, c] == if r < 6 * p + i then BlockAdd(p, q, M, r, c, old(G[r, c])) else old(G[r, c])
    {
      var j := 0;
      while j < 6
        invariant 0 <= j <= 6
        invariant forall r, c :: 0 <= r < G.Length0 && 0 <= c < G.Length1 ==>
          G[r, c] == if r < 6 * p + i || (r == 6 * p + i && c < 6 * q + j)
                     then BlockAdd(p, q, M, r, c, old(G[r, c])) else old(G[r, c])
      {
        G[6 * p + i, 6 * q + j] := G[6 * p + i, 6 * q + j] + M[i][j];
        j := j + 1;
      }
      i := i + 1;
    }
  }

  /** `G.SubMatrix(6p+1, 6p+6, 6q+1, 6q+6) = -M`. */
  method SetBlockNeg(G: array2<real>, p: int, q: int, M: Mat6)
    requires 0 <= p && 0 <= q && 6 * p + 6 <= G.Length0 && 6 * q + 6 <= G.Length1
    modifies G
    ensures forall r, c :: 0 <= r < G.Length0 && 0 <= c < G.Length1 ==>
      G[r, c] == BlockSetNeg(p, q, M, r, c, old(G[r, c]))
  {
    var i := 0;
    while i < 6
      invariant 0 <= i <= 6
      invariant forall r, c :: 0 <= r < G.Length0 && 0 <= c < G.Length1 ==>
        G[r, c] == if r < 6 * p + i then BlockSetNeg(p, q, M, r, c, old(G[r, c])) else old(G[r, c])
    {
      var j := 0;
      while j < 6
        invariant 0 <= j <= 6
        invariant forall r, c :: 0 <= r < G.Length0 && 0 <= c < G.Length1 ==>
          G[r, c] == if r < 6 * p + i || (r == 6 * p + i && c < 6 * q + j)
                     then BlockSetNeg(p, q, M, r, c, old(G[r, c])) else old(G[r, c])
      {
        G[6 * p + i, 6 * q + j] := -M[i][j];
        j := j + 1;
      }
      i := i + 1;
    }
  }

  /** `B.Rows(6p+1, 6p+6) += v` when `sign` is 1, `-= v` when it is -1. */
  method AddRows(B: array<real>, p: int, v: Vec6, sign: real)
    requires 0 <= p && 6 * p + 6 <= B.Length
    requires sign == 1.0 || sign == -1.0
    modifies B
    ensures forall r :: 0 <= r < B.Length ==> B[r] == RowsAdd(p, v, sign, r, old(B[r]))
  {
    var i := 0;
    while i < 6
      invariant 0 <= i <= 6
      invariant forall r :: 0 <= r < B.Length ==>
        B[r] == if r < 6 * p + i then RowsAdd(p, v, sign, r, old(B[r])) else old(B[r])
    {
      B[6 * p + i] := if sign == 1.0 then B[6 * p + i] + v[i] else B[6 * p + i] - v[i];
      i := i + 1;
    }
  }

  /** Enter one link into `G` and `B`, as one turn of the source's loop. */
  method EnterLink(l: Link, cab: Mat6, cdab: Vec6, G: array2<real>, B: array<real>)
    requires G.Length0 == G.Length1 == B.Length
    requires 0 <= l.from && 6 * l.from <= B.Length && 0 <= l.to && 6 * l.to <= B.Length
    modifies G, B
    ensures forall r, c :: 0 <= r < G.Length0 && 0 <= c < G.Length1 ==>
      G[r, c] == LinkG(l, cab, r, c, old(G[r, c]))
    ensures forall r :: 0 <= r < B.Length ==> B[r] == LinkB(l, cdab, r, old(B[r]))
  {
    var a, b := BlockOf(l.from), BlockOf(l.to);
    if a >= 0 {
      AddRows(B, a, cdab, 1.0);
      AddBlock(G, a, a, cab);
    }
    label AfterFrom:
    if b >= 0 {
      AddRows(B, b, cdab, -1.0);
      AddBlock(G, b, b, cab);
    }
    label AfterTo:
    if a >= 0 && b >= 0 {
      SetBlockNeg(G, a, b, cab);
      label AfterOff:
      SetBlockNeg(G, b, a, cab);
    }
  }

  /** `FillGB3D`: enter every link of `gr`, in order, into `G` and `B`. */
  method FillGB3D(gr: Graph, CD: seq<Vec6>, C: seq<Mat6>, G: array2<real>, B: array<real>)
    requires ValidGraph(gr)
    requires |gr.links| <= |CD| && |gr.links| <= |C|
    requires G.Length0 == G.Length1 == B.Length == 6 * (gr.nrScans - 1)
    modifies G, B
    ensures forall r, c :: 0 <= r < G.Length0 && 0 <= c < G.Length1 ==>
      G[r, c] == GFill(gr.links, C, |gr.links|, old(G[r, c]), r, c)
    ensures forall r :: 0 <= r < B.Length ==> B[r] == BFill(gr.links, CD, |gr.links|, old(B[r]), r)
  {
    var i := 0;
    while i < |gr.links|
      invariant 0 <= i <= |gr.links|
      invariant forall r, c :: 0 <= r < G.Length0 && 0 <= c < G.Length1 ==>
        G[r, c] == GFill(gr.links, C, i, old(G[r, c]), r, c)
      invariant forall r :: 0 <= r < B.Length ==> B[r] == BFill(gr.links, CD, i, old(B[r]), r)
    {
      EnterLink(gr.links[i], C[i], CD[i], G, B);
      i := i + 1;
    }
  }
}
