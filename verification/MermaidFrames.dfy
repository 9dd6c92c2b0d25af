/** Which labels with parentheses are quoted, inside which others: all that decides whether the passes undo each other. */
module MermaidFrames {

  /** A label with a parenthesis in it; `kind` is the number of its pass. */
  datatype Frame = Frame(kind: nat, quoted: bool, inside: seq<Frame>)

  /** Escaping leaves no label quoted. */
  function Unquoted(fs: seq<Frame>): seq<Frame>
    decreases fs
  {
    if fs == [] then [] else [Frame(fs[0].kind, false, Unquoted(fs[0].inside))] + Unquoted(fs[1..])
  }

  /** Pass `m` quotes the labels of its kind that are not, and escapes what is in them. */
  function PassFrame(m: nat, f: Frame): Frame
    decreases f
  {
    if f.kind != m then Frame(f.kind, f.quoted, PassFrames(m, f.inside))
    else if f.quoted then f
    else Frame(m, true, Unquoted(f.inside))
  }

  function PassFrames(m: nat, fs: seq<Frame>): seq<Frame>
    decreases fs
  {
    if fs == [] then [] else [PassFrame(m, fs[0])] + PassFrames(m, fs[1..])
  }

  predicate AllQuoted(fs: seq<Frame>)
    decreases fs
  {
    fs != [] ==> fs[0].quoted && AllQuoted(fs[0].inside) && AllQuoted(fs[1..])
  }

  /** No label lies in one of its own kind. */
  predicate Mixed(fs: seq<Frame>, around: set<nat>)
    decreases fs
  {
    fs != [] ==>
      && fs[0].kind < 4 && fs[0].kind !in around
      && Mixed(fs[0].inside, around + {fs[0].kind}) && Mixed(fs[1..], around)
  }

  // ---- Before the first pass ----

  /** The label will be quoted: it is not, or it will not be any more, since it lies in an unquoted one of an earlier
      kind; `least` is the earliest kind of the unquoted labels around it. */
  predicate WillBeQuoted(f: Frame, least: nat) {
    !f.quoted || least < f.kind
  }

  function Least(f: Frame, least: nat): nat {
    if !f.quoted && f.kind < least then f.kind else least
  }

  /** The kinds of the labels around that will be quoted. */
  function Around(f: Frame, least: nat, around: set<nat>): set<nat> {
    if WillBeQuoted(f, least) then around + {f.kind} else around
  }

  /** No label lies in one of a later kind that will be quoted. */
  predicate Undisturbed(fs: seq<Frame>, least: nat, around: set<nat>)
    decreases fs
  {
    fs != [] ==>
      && (forall x :: x in around ==> x <= fs[0].kind)
      && Undisturbed(fs[0].inside, Least(fs[0], least), Around(fs[0], least, around))
      && Undisturbed(fs[1..], least, around)
  }

  // ---- After some passes ----

  /** A label around it, of a kind between the two, was quoted. */
  predicate Overruled(kind: nat, around: set<nat>, m: nat) {
    exists x :: x in around && kind < x < m
  }

  /** Quoted labels after the passes before pass `m`. */
  function After(m: nat, fs: seq<Frame>, least: nat, around: set<nat>): seq<Frame>
    decreases fs
  {
    if fs == [] then [] else [AfterFrame(m, fs[0], least, around)] + After(m, fs[1..], least, around)
  }

  function AfterFrame(m: nat, f: Frame, least: nat, around: set<nat>): Frame
    decreases f
  {
    Frame(f.kind, if f.kind < m then !Overruled(f.kind, around, m) else f.quoted && least >= m,
          After(m, f.inside, Least(f, least), Around(f, least, around)))
  }

  predicate Fits(least: nat, around: set<nat>) {
    (least < 4 ==> least in around) && forall x :: x in around ==> least <= x
  }

  lemma {:induction false} AfterNothing(fs: seq<Frame>, least: nat, around: set<nat>)
    ensures After(0, fs, least, around) == fs
    decreases fs
  {
    if fs != [] {
      AfterNothing(fs[0].inside, Least(fs[0], least), Around(fs[0], least, around));
      AfterNothing(fs[1..], least, around);
    }
  }

  /** In a label of kind `m` that stays as it is, the pass changes nothing. */
  lemma {:induction false} AfterSame(m: nat, fs: seq<Frame>, least: nat, around: set<nat>, all: set<nat>)
    requires m < 4 && m !in around && m in all && Mixed(fs, all) && Fits(least, around)
    ensures After(m + 1, fs, least, around) == After(m, fs, least, around)
    decreases fs
  {
    if fs != [] {
      AfterSameFrame(m, fs[0], least, around, all);
      AfterSame(m, fs[1..], least, around, all);
    }
  }

  lemma {:induction false} AfterSameFrame(m: nat, f: Frame, least: nat, around: set<nat>, all: set<nat>)
    requires m < 4 && m !in around && m in all && f.kind != m && Mixed(f.inside, all + {f.kind}) && Fits(least, around)
    ensures AfterFrame(m + 1, f, least, around) == AfterFrame(m, f, least, around)
    decreases f
  {
    AfterSame(m, f.inside, Least(f, least), Around(f, least, around), all + {f.kind});
  }

  /** In one that is quoted, none is left quoted. */
  lemma {:induction false} AfterQuoting(m: nat, fs: seq<Frame>, least: nat, around: set<nat>, all: set<nat>)
    requires m in around && m in all && Mixed(fs, all) && least <= m
    ensures After(m + 1, fs, least, around) == Unquoted(After(m, fs, least, around))
    decreases fs
  {
    if fs != [] {
      AfterQuoting(m, fs[0].inside, Least(fs[0], least), Around(fs[0], least, around), all + {fs[0].kind});
      AfterQuoting(m, fs[1..], least, around, all);
      assert fs[0].kind < m ==> Overruled(fs[0].kind, around, m + 1);
    }
  }

  lemma {:induction false} AfterPassFrame(m: nat, f: Frame, least: nat, around: set<nat>, all: set<nat>)
    requires m < 4 && m !in around && f.kind < 4 && Mixed(f.inside, all + {f.kind}) && Fits(least, around)
    ensures AfterFrame(m + 1, f, least, around) == PassFrame(m, AfterFrame(m, f, least, around))
    decreases f
  {
    if f.kind != m {
      AfterPass(m, f.inside, Least(f, least), Around(f, least, around), all + {f.kind});
    } else if WillBeQuoted(f, least) {
      AfterQuoting(m, f.inside, Least(f, least), Around(f, least, around), all + {m});
    } else {
      AfterSame(m, f.inside, Least(f, least), Around(f, least, around), all + {m});
    }
  }

  lemma {:induction false} AfterPass(m: nat, fs: seq<Frame>, least: nat, around: set<nat>, all: set<nat>)
    requires m < 4 && m !in around && Mixed(fs, all) && Fits(least, around)
    ensures After(m + 1, fs, least, around) == PassFrames(m, After(m, fs, least, around))
    decreases fs
  {
    if fs != [] {
      AfterPassFrame(m, fs[0], least, around, all);
      AfterPass(m, fs[1..], least, around, all);
    }
  }

  lemma {:induction false} AfterAll(fs: seq<Frame>, least: nat, around: set<nat>, all: set<nat>)
    requires Mixed(fs, all) && forall x :: x in around ==> x < 4
    ensures AllQuoted(After(4, fs, least, around)) <==> Undisturbed(fs, least, around)
    decreases fs
  {
    if fs != [] {
      AfterAll(fs[0].inside, Least(fs[0], least), Around(fs[0], least, around), all + {fs[0].kind});
      AfterAll(fs[1..], least, around, all);
    }
  }

  /** After the four passes all labels with parentheses are quoted exactly when none lay in one of a later kind that
      had to be quoted. */
  lemma FourPasses(fs: seq<Frame>)
    requires Mixed(fs, {})
    ensures AllQuoted(PassFrames(3, PassFrames(2, PassFrames(1, PassFrames(0, fs))))) <==> Undisturbed(fs, 4, {})
  {
    AfterNothing(fs, 4, {});
    AfterPass(0, fs, 4, {}, {});
    AfterPass(1, fs, 4, {}, {});
    AfterPass(2, fs, 4, {}, {});
    AfterPass(3, fs, 4, {}, {});
    AfterAll(fs, 4, {}, {});
  }
}
