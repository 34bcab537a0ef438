/** The reference for MemoryBufferSink: a log of every frame ever appended, and the window
    of the largest slice numbers in it. */
module SliceWindow {
  import opened Memory
  import opened FiniteSets

  /** A frame appended to slice `slice`. */
  datatype Piece = Piece(slice: nat, data: seq<byte>)

  ghost function Slices(log: seq<Piece>): set<nat> {
    set p | p in log :: p.slice
  }

  /** All the data of one slice, in arrival order. */
  ghost function Content(log: seq<Piece>, slice: nat): seq<byte> {
    if log == [] then []
    else Content(log[..|log| - 1], slice)
         + (if log[|log| - 1].slice == slice then log[|log| - 1].data else [])
  }

  ghost function Above(s: set<nat>, x: nat): set<nat> {
    set y | y in s && y > x
  }

  /** The n largest elements. */
  ghost function Largest(s: set<nat>, n: nat): set<nat> {
    set x | x in s && |Above(s, x)| < n
  }

  /** The n largest slices of the log with everything that ever arrived for them. */
  ghost function Window(log: seq<Piece>, n: nat): map<nat, seq<byte>> {
    map x | x in Largest(Slices(log), n) :: Content(log, x)
  }

  /** Removing the least element of a set over size n does not change its n largest. */
  lemma DropLeast(s: set<nat>, m: nat, n: nat)
    requires IsLeast(m, s) && |s| > n
    ensures Largest(s - {m}, n) == Largest(s, n)
  {
    assert Above(s, m) == s - {m};
    forall x | x in s - {m} ensures Above(s - {m}, x) == Above(s, x) {}
  }

  lemma SmallIsAll(s: set<nat>, n: nat)
    requires |s| <= n
    ensures Largest(s, n) == s
  {
    forall x | x in s ensures |Above(s, x)| < n {
      SubsetSize(Above(s, x), s);
    }
  }

  lemma {:induction false} LargestSize(s: set<nat>, n: nat)
    ensures |Largest(s, n)| == if |s| <= n then |s| else n
    decreases |s|
  {
    if |s| <= n {
      SmallIsAll(s, n);
    } else {
      LeastExists(s);
      var m :| IsLeast(m, s);
      DropLeast(s, m, n);
      LargestSize(s - {m}, n);
    }
  }

  /** Everything above a member of the n largest is a member. */
  lemma LargestIsUpperPart(s: set<nat>, n: nat, x: nat, y: nat)
    requires x in Largest(s, n) && y in s && y > x
    ensures y in Largest(s, n)
  {
    assert Above(s, y) <= Above(s, x);
    SubsetSize(Above(s, y), Above(s, x));
  }

  lemma NewcomerRank(s: set<nat>, n: nat, x: nat)
    ensures |Above(Largest(s, n), x)| < n <==> |Above(s, x)| < n
  {
    var t := Largest(s, n);
    if |Above(s, x)| < n {
      forall y | y in Above(s, x) ensures y in t {
        SubsetSize(Above(s, y), Above(s, x));
      }
      assert Above(t, x) == Above(s, x);
    } else {
      forall y | y in t ensures y > x {
        if y <= x {
          assert Above(s, x) <= Above(s, y);
          SubsetSize(Above(s, x), Above(s, y));
        }
      }
      assert Above(t, x) == t;
      SubsetSize(Above(s, x), s);
      LargestSize(s, n);
    }
  }

  /** The n largest of a growing set can be kept from the previous n largest alone: an
      element once outside never comes back. */
  lemma LargestOfGrown(s: set<nat>, x: nat, n: nat)
    ensures Largest(s + {x}, n) == Largest(Largest(s, n) + {x}, n)
  {
    var t := Largest(s, n);
    forall y | y in s + {x}
      ensures y in Largest(s + {x}, n) <==> y in Largest(t + {x}, n)
    {
      if y in t {
        assert Above(t + {x}, y) == Above(s + {x}, y) by {
          forall z | z in s && z > y ensures z in t { LargestIsUpperPart(s, n, y, z); }
        }
      } else if y == x {
        assert Above(t + {x}, x) == Above(t, x) && Above(s + {x}, x) == Above(s, x);
        NewcomerRank(s, n, x);
      } else {
        SubsetSize(Above(s, y), Above(s + {x}, y));
      }
    }
  }

  lemma SlicesAppend(log: seq<Piece>, p: Piece)
    ensures Slices(log + [p]) == Slices(log) + {p.slice}
    ensures forall x :: Content(log + [p], x) == Content(log, x) + (if x == p.slice then p.data else [])
  {
    assert (log + [p])[..|log|] == log;
    assert forall q :: q in log + [p] <==> q in log || q == p;
  }

  /** Content is gathered in arrival order, starting from nothing. */
  lemma {:induction false} ContentSplits(first: seq<Piece>, later: seq<Piece>, x: nat)
    ensures Content(first + later, x) == Content(first, x) + Content(later, x)
  {
    if later == [] {
      assert first + later == first;
    } else {
      var n := |later| - 1;
      var tail := if later[n].slice == x then later[n].data else [];
      assert (first + later)[..|first + later| - 1] == first + later[..n];
      ContentSplits(first, later[..n], x);
      assert Content(first + later, x) == Content(first + later[..n], x) + tail;
      assert Content(later, x) == Content(later[..n], x) + tail;
    }
  }

  lemma ContentOfOne(p: Piece, x: nat)
    ensures Content([p], x) == if p.slice == x then p.data else []
  {
    assert [p][..0] == [];
    assert Content([], x) == [];
  }

  lemma {:induction false} NoSliceNoContent(log: seq<Piece>, x: nat)
    requires x !in Slices(log)
    ensures Content(log, x) == []
  {
    if log != [] {
      var last := |log| - 1;
      assert log[last] in log;
      assert forall q | q in log[..last] :: q in log;
      NoSliceNoContent(log[..last], x);
    }
  }

  /** The window with the frame's data appended to its slice, before eviction. */
  ghost function Grown(w: map<nat, seq<byte>>, p: Piece): map<nat, seq<byte>> {
    w[p.slice := (if p.slice in w then w[p.slice] else []) + p.data]
  }

  /** The entries of the n largest slices. */
  ghost function Trimmed(w: map<nat, seq<byte>>, n: nat): map<nat, seq<byte>> {
    map x | x in w && x in Largest(w.Keys, n) :: w[x]
  }

  lemma GrownContent(log: seq<Piece>, p: Piece, n: nat, x: nat)
    requires x in Largest(Slices(log + [p]), n)
    ensures x in Grown(Window(log, n), p) && Grown(Window(log, n), p)[x] == Content(log + [p], x)
  {
    var s := Slices(log);
    SlicesAppend(log, p);
    if x in Largest(s, n) {
    } else if x in s {
      SubsetSize(Above(s, x), Above(s + {p.slice}, x));
      assert false;
    } else {
      NoSliceNoContent(log, x);
    }
  }

  /** One arrival: append to the slice in the window, then keep the n largest slices. */
  lemma WindowStep(log: seq<Piece>, p: Piece, n: nat)
    ensures Window(log + [p], n) == Trimmed(Grown(Window(log, n), p), n)
  {
    hide Largest, Content;
    var grown := Grown(Window(log, n), p);
    SlicesAppend(log, p);
    LargestOfGrown(Slices(log), p.slice, n);
    assert grown.Keys == Largest(Slices(log), n) + {p.slice};
    forall x | x in Largest(Slices(log + [p]), n) ensures x in grown && grown[x] == Content(log + [p], x) {
      GrownContent(log, p, n, x);
    }
  }

  /** An evicted slice never comes back, whatever arrives later. */
  lemma EvictedStaysOut(log: seq<Piece>, more: seq<Piece>, n: nat, x: nat)
    requires x in Slices(log) && x !in Window(log, n)
    ensures x !in Window(log + more, n)
  {
    forall y | y in Slices(log) ensures y in Slices(log + more) {
      var p :| p in log && p.slice == y;
      assert p in log + more;
    }
    SubsetSize(Above(Slices(log), x), Above(Slices(log + more), x));
  }
}
