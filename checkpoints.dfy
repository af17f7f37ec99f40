/** The progress checkpoints the wizard saves: each record, the set of
    names a run of records carries, and what firing a list of names in turn
    appends. A name fires at most once until the fired set is cleared. */
module Checkpoints {
  import opened Types

  /** One saved checkpoint: its name and the answers at the time (the
      record's `formType` is `answers["formType"]`). */
  datatype Checkpoint = Checkpoint(name: string, answers: Answers)

  /** The names of a run of saved checkpoints. */
  function Names(log: seq<Checkpoint>): set<string>
  {
    if log == [] then {} else Names(log[..|log| - 1]) + {log[|log| - 1].name}
  }

  lemma {:induction false} NamesAt(log: seq<Checkpoint>, n: string)
    requires n in Names(log)
    ensures exists k :: 0 <= k < |log| && log[k].name == n
  {
    if log != [] && n != log[|log| - 1].name {
      NamesAt(log[..|log| - 1], n);
      var k :| 0 <= k < |log| - 1 && log[..|log| - 1][k].name == n;
      assert log[k].name == n;
    }
  }

  lemma {:induction false} NamesHas(log: seq<Checkpoint>, k: nat)
    requires k < |log|
    ensures log[k].name in Names(log)
  {
    if k < |log| - 1 {
      NamesHas(log[..|log| - 1], k);
    }
  }

  lemma NamesAppend(log: seq<Checkpoint>, c: Checkpoint)
    ensures Names(log + [c]) == Names(log) + {c.name}
  {
    assert (log + [c])[..|log + [c]| - 1] == log;
  }

  /** No checkpoint name appears twice in `log`. */
  predicate Once(log: seq<Checkpoint>)
  {
    forall i, j :: 0 <= i < j < |log| ==> log[i].name != log[j].name
  }

  /** The names a list mentions. */
  function Elems(xs: seq<string>): set<string>
  {
    if xs == [] then {} else {xs[0]} + Elems(xs[1..])
  }

  lemma {:induction false} ElemsAppend(xs: seq<string>, ys: seq<string>)
    ensures Elems(xs + ys) == Elems(xs) + Elems(ys)
  {
    if xs != [] {
      ElemsAppend(xs[1..], ys);
      assert (xs + ys)[0] == xs[0] && (xs + ys)[1..] == xs[1..] + ys;
    } else {
      assert xs + ys == ys;
    }
  }

  /** Firing each of `names` in turn, starting from the set `fired`: a name
      already fired saves nothing, any other name saves one record. */
  function Announce(fired: set<string>, names: seq<string>, a: Answers): (log: seq<Checkpoint>)
    ensures |log| <= |names|
    decreases |names|
  {
    if names == [] then []
    else
      var head := if names[0] in fired then [] else [Checkpoint(names[0], a)];
      head + Announce(fired + {names[0]}, names[1..], a)
  }

  /** Every saved record carries the current answers and a name that had
      not fired. */
  lemma {:induction false} AnnounceFresh(fired: set<string>, names: seq<string>, a: Answers)
    ensures forall k :: 0 <= k < |Announce(fired, names, a)| ==>
              Announce(fired, names, a)[k].name !in fired && Announce(fired, names, a)[k].answers == a
    decreases |names|
  {
    if names != [] {
      var head := if names[0] in fired then [] else [Checkpoint(names[0], a)];
      var rest := Announce(fired + {names[0]}, names[1..], a);
      AnnounceFresh(fired + {names[0]}, names[1..], a);
      var log := head + rest;
      forall k | 0 <= k < |log| ensures log[k].name !in fired && log[k].answers == a {
        if k >= |head| {
          assert log[k] == rest[k - |head|];
        }
      }
    }
  }

  /** Firing checkpoints never saves one name twice. */
  lemma {:induction false} AnnounceOnce(fired: set<string>, names: seq<string>, a: Answers)
    ensures Once(Announce(fired, names, a))
    decreases |names|
  {
    if names != [] {
      var head := if names[0] in fired then [] else [Checkpoint(names[0], a)];
      var rest := Announce(fired + {names[0]}, names[1..], a);
      AnnounceOnce(fired + {names[0]}, names[1..], a);
      AnnounceFresh(fired + {names[0]}, names[1..], a);
      var log := head + rest;
      assert log == Announce(fired, names, a);
      forall i, j | 0 <= i < j < |log| ensures log[i].name != log[j].name {
        if i < |head| {
          assert log[i].name == names[0];
          assert log[j] == rest[j - |head|];
        } else {
          assert log[i] == rest[i - |head|] && log[j] == rest[j - |head|];
        }
      }
    }
  }

  /** A name is saved exactly when it was asked for and had not fired
      before. */
  lemma {:induction false} AnnounceNames(fired: set<string>, names: seq<string>, a: Answers)
    ensures Names(Announce(fired, names, a)) == Elems(names) - fired
    decreases |names|
  {
    if names != [] {
      var n := names[0];
      var head := if n in fired then [] else [Checkpoint(n, a)];
      var rest := Announce(fired + {n}, names[1..], a);
      assert Announce(fired, names, a) == head + rest;
      AnnounceNames(fired + {n}, names[1..], a);
      NamesConcat(head, rest);
      var fromHead := if n in fired then {} else {n};
      assert Names(head) == fromHead by {
        if n !in fired {
          assert head[..0] == [];
        }
      }
      SplitFirst(fired, n, Elems(names[1..]));
    }
  }

  /** Set algebra for the step of `AnnounceNames`. */
  lemma SplitFirst(fired: set<string>, n: string, tail: set<string>)
    ensures (if n in fired then {} else {n}) + (tail - (fired + {n})) == ({n} + tail) - fired
  {
  }

  lemma {:induction false} NamesConcat(xs: seq<Checkpoint>, ys: seq<Checkpoint>)
    ensures Names(xs + ys) == Names(xs) + Names(ys)
  {
    if ys != [] {
      var init := ys[..|ys| - 1];
      NamesConcat(xs, init);
      assert xs + ys == (xs + init) + [ys[|ys| - 1]];
      NamesAppend(xs + init, ys[|ys| - 1]);
      NamesAppend(init, ys[|ys| - 1]);
      assert ys == init + [ys[|ys| - 1]];
    } else {
      assert xs + ys == xs;
    }
  }

  /** Firing a list of names is firing its first part, then the rest from
      the set that first part leaves. */
  lemma {:induction false} AnnounceAppend(fired: set<string>, xs: seq<string>, ys: seq<string>, a: Answers)
    ensures Announce(fired, xs + ys, a) ==
            Announce(fired, xs, a) + Announce(fired + Elems(xs), ys, a)
    decreases |xs|
  {
    if xs == [] {
      assert xs + ys == ys;
      assert fired + Elems(xs) == fired;
      assert Announce(fired, xs, a) == [];
    } else {
      var n := xs[0];
      var f := fired + {n};
      var head := if n in fired then [] else [Checkpoint(n, a)];
      var zs := xs + ys;
      assert zs[0] == n && zs[1..] == xs[1..] + ys;
      assert Announce(fired, zs, a) == head + Announce(f, xs[1..] + ys, a);
      assert Announce(fired, xs, a) == head + Announce(f, xs[1..], a);
      AnnounceAppend(f, xs[1..], ys, a);
      assert f + Elems(xs[1..]) == fired + Elems(xs) by {
        assert Elems(xs) == {n} + Elems(xs[1..]);
      }
      ConcatAssoc(head, Announce(f, xs[1..], a), Announce(fired + Elems(xs), ys, a));
    }
  }

  lemma ConcatAssoc(p: seq<Checkpoint>, q: seq<Checkpoint>, r: seq<Checkpoint>)
    ensures p + (q + r) == (p + q) + r
  {
  }

  /** Firing one list and then another is firing their concatenation. */
  lemma FireTwice(f0: set<string>, l0: seq<Checkpoint>, f1: set<string>, l1: seq<Checkpoint>,
                  f2: set<string>, l2: seq<Checkpoint>, xs: seq<string>, ys: seq<string>, a: Answers)
    requires f1 == f0 + Elems(xs) && l1 == l0 + Announce(f0, xs, a)
    requires f2 == f1 + Elems(ys) && l2 == l1 + Announce(f1, ys, a)
    ensures f2 == f0 + Elems(xs + ys)
    ensures l2 == l0 + Announce(f0, xs + ys, a)
  {
    AnnounceAppend(f0, xs, ys, a);
    ElemsAppend(xs, ys);
    assert l2 == l0 + (Announce(f0, xs, a) + Announce(f1, ys, a));
  }
}
