/**
 Publishing a configuration file with backup, rollback and quarantine, under any pattern of
 failing calls and any interference by another process at the destination.
 */
module ConfigTransactions {
  import opened Common
  import opened Files

  const ALLOCATION_ATTEMPTS := 100

  /** `potentiallyCommitted`: the destination may already be the new file. */
  datatype CommitResult = Committed | CommitFailed(potentiallyCommitted: bool)

  datatype RestoreError =
    | NoBackup
    | NoFreeName
    | NoIdentity
    | Recreated
    | ConcurrentFileRestored
    | OperationFailed

  datatype RestoreResult = Restored | RestoreFailed(error: RestoreError)

  /** While the destination is as it was loaded, durably, and nothing on the disk threatens that. */
  ghost predicate Calm(d: Disk, p: Plan) {
    && Lookup(d.entries, Dest) == p.loaded && DestUntouched(d, p)
    && (p.loaded.Some? ==>
          && p.loaded.value in d.solid && d.solid[p.loaded.value] == p.original
          && p.loaded.value in d.data && d.data[p.loaded.value] == p.original)
  }

  /** Since `from`, no call of ours changed the destination. */
  predicate DestAlone(h: seq<Moment>, from: nat) {
    |h| <= from || (DestAlone(h[..|h| - 1], from) && !ChangesDest(h[|h| - 1].op))
  }

  /** Since `from`, every moment was crash safe. */
  ghost predicate AllSteady(h: seq<Moment>, from: nat, p: Plan) {
    |h| <= from || (AllSteady(h[..|h| - 1], from, p) && Steady(h[|h| - 1].after, p))
  }

  predicate FaultFree(h: seq<Moment>, from: nat) {
    |h| <= from || (FaultFree(h[..|h| - 1], from) && h[|h| - 1].op != Failed)
  }

  /** What a rollback or a commit promises to have done, as one call of the history shows it. */
  datatype Fact =
    | Publishes(content: Bytes)              // a temporary file with `content` put at the destination
    | PutsBack(backup: Option<Name>)         // the backup renamed over the destination
    | ReadAs(name: Name, content: Bytes)
    | Creates(name: Name, inode: Inode)
    | Taken(name: Name)                      // a new file refused because the name was taken
    | Synced
    | Identified(name: Name)
    | ReturnsForeign(published: Option<Inode>)
    | TakesOff(published: Option<Inode>)     // the published file removed, or nothing there to move
    | Leaves(name: Name)                     // a name that was to go and could not

  predicate Succeeded(op: Op) {
    op != Failed && op != Refused
  }

  predicate Shows(m: Moment, fact: Fact) {
    match fact
    case Publishes(content) =>
      && (m.call.Renaming? || m.call.Linking?) && m.call.src.Temp? && m.call.dst == Dest
      && Succeeded(m.op) && m.after.Holds(Dest, content)
    case PutsBack(backup) =>
      && m.call.Renaming? && backup == Some(m.call.src) && m.call.dst == Dest && Succeeded(m.op)
      && m.call.src in m.before.entries && Lookup(m.after.entries, Dest) == Some(m.before.entries[m.call.src])
    case ReadAs(name, content) => m.call == Reading(name) && Succeeded(m.op) && m.before.Holds(name, content)
    case Creates(name, inode) => m.op == Created(name, inode)
    case Taken(name) => m.call == Creating(name) && m.op == Refused && name in m.before.entries
    case Synced => m.op == SyncedDirectory
    case Identified(name) => m.call == Stating(name) && Succeeded(m.op)
    case ReturnsForeign(published) =>
      m.op.Linked? && m.op.src.Quarantine? && m.op.dst == Dest && published != Some(m.op.inode)
    case TakesOff(published) =>
      || (m.call.Renaming? && m.call.src == Dest && m.op == Refused && Dest !in m.before.entries)
      || (m.op.Unlinked? && m.op.name.Quarantine? && published == Some(m.op.inode))
    case Leaves(name) =>
      || (m.call == Unlinking(name) && m.op == Failed)
      || (m.call == Renaming(name, Dest) && m.op == Nothing)    // it links the destination's file already
  }

  /** A moment since `from` shows it. */
  predicate Seen(h: seq<Moment>, from: nat, fact: Fact) {
    exists k | from <= k < |h| :: Shows(h[k], fact)
  }

  lemma OneMoreSeen(h: seq<Moment>, m: Moment, from: nat, fact: Fact)
    requires from <= |h|
    ensures Seen(h + [m], from, fact) == (Seen(h, from, fact) || Shows(m, fact))
  {
    var longer := h + [m];
    assert longer[|h|] == m && forall k | from <= k < |h| :: longer[k] == h[k];
    assert Shows(m, fact) ==> Shows(longer[|h|], fact);
    assert Seen(h, from, fact) ==> Seen(longer, from, fact) by {
      if Seen(h, from, fact) {
        var k :| from <= k < |h| && Shows(h[k], fact);
        assert Shows(longer[k], fact);
      }
    }
  }

  lemma StaysSeen(h: seq<Moment>, longer: seq<Moment>, from: nat, fact: Fact)
    requires h <= longer && Seen(h, from, fact)
    ensures Seen(longer, from, fact)
  {
    var k :| from <= k < |h| && Shows(h[k], fact);
    assert Shows(longer[k], fact);
  }

  lemma KeepsMore(d: Disk, l: Ledger, quiet: bool, files: map<Name, File>, n: Name, f: File)
    requires Keeps(d, l, quiet, files) && !n.Private()
    requires f.inode in l.created && f.inode in d.data && d.data[f.inode] == f.content
    requires quiet ==> Lookup(d.entries, n) == Some(f.inode) && f.inode in d.solid && d.solid[f.inode] == f.content
    ensures Keeps(d, l, quiet, files[n := f])
  {
  }

  lemma LookShows(m: Moment, n: Name)
    requires m.call == Stating(n)
    ensures Shows(m, Identified(n)) == Succeeded(m.op)
  {
  }

  /** The first `n` backup names were all refused because they were taken. */
  predicate AllTaken(h: seq<Moment>, from: nat, stamp: nat, n: nat) {
    forall k: nat | k < n :: Seen(h, from, Taken(Backup(stamp, k)))
  }

  lemma StayTaken(h: seq<Moment>, longer: seq<Moment>, from: nat, stamp: nat, n: nat)
    requires h <= longer && AllTaken(h, from, stamp, n)
    ensures AllTaken(longer, from, stamp, n)
  {
    forall k: nat | k < n ensures Seen(longer, from, Taken(Backup(stamp, k))) {
      StaysSeen(h, longer, from, Taken(Backup(stamp, k)));
    }
  }

  lemma KeepsLess(d: Disk, l: Ledger, quiet: bool, files: map<Name, File>, n: Name, f: File)
    requires n !in files && Keeps(d, l, quiet, files[n := f])
    ensures Keeps(d, l, quiet, files)
  {
    assert forall k <- files :: k in files[n := f] && files[n := f][k] == files[k];
  }

  predicate Hitch(op: Op) {
    op == Failed || op == Refused || (op.Wrote? && op.chunk == [])
  }

  /** Since `from`, no call failed, found a name taken or missing, or wrote nothing. */
  predicate Smooth(h: seq<Moment>, from: nat) {
    |h| <= from || (Smooth(h[..|h| - 1], from) && !Hitch(h[|h| - 1].op))
  }

  /** One more moment, for every property that looks back along the history. */
  lemma OneMoreTaken(h: seq<Moment>, m: Moment, from: nat, published: Option<Inode>)
    requires from <= |h|
    ensures Seen(h + [m], from, TakesOff(published)) ==
            (Seen(h, from, TakesOff(published)) || Shows(m, TakesOff(published)))
    ensures FaultFree(h + [m], from) == (FaultFree(h, from) && m.op != Failed)
    ensures AllSafe(h + [m]) == (AllSafe(h) && Safe(m))
  {
    assert (h + [m])[..|h|] == h;
    OneMoreSeen(h, m, from, TakesOff(published));
  }

  lemma OneMore(h: seq<Moment>, m: Moment, from: nat, p: Plan)
    requires from <= |h|
    ensures DestAlone(h + [m], from) == (DestAlone(h, from) && !ChangesDest(m.op))
    ensures AllSteady(h + [m], from, p) == (AllSteady(h, from, p) && Steady(m.after, p))
    ensures FaultFree(h + [m], from) == (FaultFree(h, from) && m.op != Failed)
    ensures Smooth(h + [m], from) == (Smooth(h, from) && !Hitch(m.op))
    ensures AllSafe(h + [m]) == (AllSafe(h) && Safe(m))
  {
    assert (h + [m])[..|h|] == h;
  }

  /** Only the recorded quarantine name holds anything aside, and it holds a file that is safe to drop or aside. */
  predicate Guarded(d: Disk, l: Ledger, quarantine: Option<Name>) {
    && l.aside.Keys <= (if quarantine.Some? then {quarantine.value} else {})
    && (quarantine.Some? ==>
          var q := quarantine.value;
          && q.Quarantine? && q in d.entries
          && (if q in l.aside then l.aside[q] == d.entries[q] else d.entries[q] in l.created + l.returned))
  }

  /** A placeholder: a quarantine name that holds only a file of ours. */
  predicate Placeholder(d: Disk, l: Ledger, quarantine: Option<Name>) {
    quarantine.Some? ==>
      quarantine.value in d.entries && quarantine.value !in l.aside && d.entries[quarantine.value] in l.created
  }

  /** A call that changes no name. */
  lemma GuardedStays(d: Disk, l: Ledger, alone: bool, quarantine: Option<Name>, m: Moment)
    requires Guarded(d, l, quarantine)
    requires m.ledger == l && Meddled(d, m.before, alone, l.created) && Ran(m)
    requires m.op in {Nothing, Failed, Refused, SyncedDirectory}
    ensures Guarded(m.after, Note(l, m.op), quarantine) && Note(l, m.op) == l && Safe(m)
    ensures alone ==> m.after.entries == d.entries && m.after.data == d.data
  {
  }

  /** A call of restore that moves nothing. */
  lemma GuardedStep(d: Disk, l: Ledger, h: seq<Moment>, alone: bool, quarantine: Option<Name>, m: Moment)
    requires Guarded(d, l, quarantine) && AllSafe(h)
    requires m.ledger == l && Meddled(d, m.before, alone, l.created) && Ran(m)
    requires m.op in {Nothing, Failed, Refused, SyncedDirectory}
    ensures Guarded(m.after, Note(l, m.op), quarantine) && AllSafe(h + [m])
    ensures Placeholder(d, l, quarantine) ==> Placeholder(m.after, Note(l, m.op), quarantine)
  {
    OneMoreTaken(h, m, 0, None);
    GuardedStays(d, l, alone, quarantine, m);
  }

  /** Creating a placeholder where none was. */
  lemma GuardedCreate(d: Disk, l: Ledger, h: seq<Moment>, alone: bool, m: Moment)
    requires Guarded(d, l, None) && AllSafe(h)
    requires m.ledger == l && Meddled(d, m.before, alone, l.created) && Ran(m)
    requires m.op.Created? && m.op.name.Quarantine?
    ensures AllSafe(h + [m])
    ensures Guarded(m.after, Note(l, m.op), Some(m.op.name)) && Placeholder(m.after, Note(l, m.op), Some(m.op.name))
  {
    OneMoreTaken(h, m, 0, None);
  }

  /** Dropping a quarantine name whose file is ours or is back at the destination. */
  lemma GuardedDrop(d: Disk, l: Ledger, h: seq<Moment>, alone: bool, q: Name, m: Moment)
    requires Guarded(d, l, Some(q)) && AllSafe(h)
    requires d.entries[q] in l.created + l.returned
    requires m.ledger == l && Meddled(d, m.before, alone, l.created) && Ran(m)
    requires m.op.Unlinked? && m.op.name == q
    ensures m.op.inode == d.entries[q] && q !in m.after.entries
    ensures Guarded(m.after, Note(l, m.op), None) && AllSafe(h + [m])
    ensures Note(l, m.op).aside == map[]
  {
    OneMoreTaken(h, m, 0, None);
  }

  /** The one call of dropping it: it went, or the call failed and nothing changed. */
  lemma GuardedUnlink(d: Disk, l: Ledger, h: seq<Moment>, alone: bool, q: Name, m: Moment)
    requires Guarded(d, l, Some(q)) && AllSafe(h)
    requires d.entries[q] in l.created + l.returned
    requires m.ledger == l && Meddled(d, m.before, alone, l.created) && Ran(m)
    requires (m.op.Unlinked? && m.op.name == q) || m.op == Failed || (m.op == Refused && q !in m.before.entries)
    ensures AllSafe(h + [m]) && m.op != Refused
    ensures Note(l, m.op).created == l.created
    ensures alone ==> Lookup(m.after.entries, Dest) == Lookup(d.entries, Dest)
    ensures m.op.Unlinked? ==>
              && Guarded(m.after, Note(l, m.op), None) && Note(l, m.op).aside == map[]
              && q !in m.after.entries && Shows(m, TakesOff(Some(d.entries[q])))
    ensures m.op == Failed ==> Guarded(m.after, Note(l, m.op), Some(q))
  {
    if m.op.Unlinked? {
      GuardedDrop(d, l, h, alone, q, m);
    } else {
      GuardedStep(d, l, h, alone, Some(q), m);
    }
  }

  /** Moving the destination onto the placeholder. */
  lemma GuardedMove(d: Disk, l: Ledger, h: seq<Moment>, alone: bool, q: Name, m: Moment)
    requires Guarded(d, l, Some(q)) && AllSafe(h) && Placeholder(d, l, Some(q))
    requires m.ledger == l && Meddled(d, m.before, alone, l.created) && Ran(m)
    requires m.op.Moved? && m.op.src == Dest && m.op.dst == q
    ensures Guarded(m.after, Note(l, m.op), Some(q)) && AllSafe(h + [m])
    ensures q in Note(l, m.op).aside && Note(l, m.op).aside[q] == m.op.inode && Dest !in m.after.entries
  {
    OneMoreTaken(h, m, 0, None);
    assert l.aside == map[] && Note(l, m.op).aside.Keys == {q};
    assert q in m.after.entries && m.after.entries[q] == m.op.inode;
  }

  /** The call that moves it: what was there is aside, or nothing was there, or nothing changed. */
  lemma GuardedAside(
      d: Disk, l: Ledger, h: seq<Moment>, alone: bool, q: Name, m: Moment, published: Option<Inode>)
    requires Guarded(d, l, Some(q)) && AllSafe(h) && Placeholder(d, l, Some(q))
    requires m.ledger == l && Meddled(d, m.before, alone, l.created) && Ran(m) && m.call == Renaming(Dest, q)
    requires (m.op.Moved? && m.op.src == Dest && m.op.dst == q) || m.op in {Nothing, Failed, Refused}
    requires m.op == Refused ==> Dest !in m.before.entries
    ensures Guarded(m.after, Note(l, m.op), Some(q)) && AllSafe(h + [m]) && Note(l, m.op).created == l.created
    ensures if m.op.Moved?
            then
              && q in Note(l, m.op).aside && Dest !in m.after.entries
              && (alone ==> Lookup(d.entries, Dest) == Some(Note(l, m.op).aside[q]))
            else Placeholder(m.after, Note(l, m.op), Some(q)) && (alone ==> m.after.entries == d.entries)
    ensures m.op == Refused ==> Shows(m, TakesOff(published))
  {
    if m.op.Moved? {
      GuardedMove(d, l, h, alone, q, m);
    } else {
      GuardedStep(d, l, h, alone, Some(q), m);
    }
  }

  /** Linking what was moved aside back at the destination. */
  lemma GuardedReturn(d: Disk, l: Ledger, h: seq<Moment>, alone: bool, q: Name, m: Moment)
    requires Guarded(d, l, Some(q)) && AllSafe(h)
    requires m.ledger == l && Meddled(d, m.before, alone, l.created) && Ran(m)
    requires m.op.Linked? && m.op.src == q && m.op.dst == Dest
    ensures Guarded(m.after, Note(l, m.op), Some(q)) && AllSafe(h + [m])
    ensures m.op.inode == d.entries[q] && m.after.entries[q] in Note(l, m.op).created + Note(l, m.op).returned
  {
    OneMoreTaken(h, m, 0, None);
  }

  /** A crash at any moment of the history since `from` is safe. */
  lemma {:induction false} EveryMomentIsCrashSafe(h: seq<Moment>, from: nat, p: Plan, k: nat, kept: set<nat>)
    requires AllSteady(h, from, p) && from <= k < |h|
    ensures CrashSafe(h[k].after, p, kept)
  {
    if k == |h| - 1 {
      SteadyIsCrashSafe(h[k].after, p, kept);
    } else {
      EveryMomentIsCrashSafe(h[..|h| - 1], from, p, k, kept);
    }
  }

  /** A finished file of this transaction: its inode and its bytes. */
  datatype File = File(inode: Inode, content: Bytes)

  ghost predicate Keeps(d: Disk, l: Ledger, quiet: bool, files: map<Name, File>) {
    forall n <- files ::
      var f := files[n];
      && (n.Private() || quiet ==> n in d.entries && d.entries[n] == f.inode)
      && f.inode in l.created && f.inode in d.data && d.data[f.inode] == f.content
      && (quiet ==> f.inode in d.solid && d.solid[f.inode] == f.content)
  }

  /** The disk of a transaction that has not published, `files` being what it has finished. */
  ghost predicate Preparing(
    d: Disk, l: Ledger, h: seq<Moment>, quiet: bool, before: seq<Moment>, p: Plan, files: map<Name, File>)
  {
    && l.aside == map[] && AllSafe(h)
    && |before| <= |h| && h[..|before|] == before && DestAlone(h, |before|)
    && Keeps(d, l, quiet, files)
    && (quiet ==>
          && Calm(d, p) && AllSteady(h, |before|, p)
          && (p.loaded.Some? ==> p.loaded.value !in l.created))
  }

  /** The calls a transaction makes before it publishes. */
  predicate Preparatory(op: Op, files: map<Name, File>) {
    match op
    case Created(n, _) => n != Dest
    case Wrote(i, _) => forall n <- files :: files[n].inode != i
    case Unlinked(n, _) => n != Dest && n !in files
    case Linked(_, _, _) => false
    case Moved(_, _, _, _) => false
    case _ => true
  }

  /** The names no other process touches link what they linked. */
  ghost predicate SameNames(d: Disk, d': Disk, quiet: bool) {
    forall n: Name | n.Private() || quiet :: Lookup(d'.entries, n) == Lookup(d.entries, n)
  }

  /** The private names, apart from one, link what they linked. */
  ghost predicate SamePrivate(d: Disk, d': Disk, except: Option<Name>) {
    forall n: Name | n.Private() && except != Some(n) :: Lookup(d'.entries, n) == Lookup(d.entries, n)
  }

  /**
   A private name is one that was there, apart from `mine`, or is recorded as `kept`, or it was to go since
   `from` and could not.
   */
  predicate Tidy(base: Disk, mine: Option<Name>, d: Disk, kept: Option<Name>, h: seq<Moment>, from: nat) {
    forall n <- d.entries | n.Private() ::
      (n in base.entries && mine != Some(n)) || kept == Some(n) || Seen(h, from, Leaves(n))
  }

  /** No private name but those that were there, apart from `mine`. */
  predicate Spotless(base: Disk, mine: Option<Name>, d: Disk) {
    forall n <- d.entries | n.Private() :: n in base.entries && mine != Some(n)
  }

  lemma SpotlessIsTidy(base: Disk, mine: Option<Name>, d: Disk, kept: Option<Name>, h: seq<Moment>, from: nat)
    requires Spotless(base, mine, d)
    ensures Tidy(base, mine, d, kept, h, from)
  {
  }

  /** Calls that touch no private name, before calls that leave things tidy. */
  lemma SameThenTidy(a: Disk, b: Disk, mine: Option<Name>, c: Disk, kept: Option<Name>, h: seq<Moment>, from: nat)
    requires SamePrivate(a, b, None)
    ensures Tidy(b, mine, c, kept, h, from) ==> Tidy(a, mine, c, kept, h, from)
    ensures Spotless(b, mine, c) ==> Spotless(a, mine, c)
  {
    forall n <- b.entries | n.Private() ensures n in a.entries {
      assert Lookup(b.entries, n) == Lookup(a.entries, n);
    }
  }

  lemma SpotlessThen(a: Disk, except: Option<Name>, b: Disk, c: Disk)
    requires SamePrivate(a, b, except) && Spotless(b, except, c)
    ensures Spotless(a, None, c)
  {
    forall n <- c.entries | n.Private() ensures n in a.entries {
      assert Lookup(b.entries, n) == Lookup(a.entries, n);
    }
  }

  lemma TidyThen(a: Disk, mine: Option<Name>, b: Disk, now: Option<Name>, h: seq<Moment>,
                 c: Disk, kept: Option<Name>, longer: seq<Moment>, from: nat)
    requires Tidy(a, mine, b, now, h, from) && Tidy(b, now, c, kept, longer, from) && h <= longer
    ensures Tidy(a, mine, c, kept, longer, from)
  {
    forall n <- c.entries | n.Private()
      ensures (n in a.entries && mine != Some(n)) || kept == Some(n) || Seen(longer, from, Leaves(n))
    {
      if n in b.entries && Seen(h, from, Leaves(n)) {
        StaysSeen(h, longer, from, Leaves(n));
      }
    }
  }

  /** Nothing private has changed but for one name, which is recorded or could not go. */
  lemma TidyStep(d: Disk, mine: Option<Name>, d': Disk, kept: Option<Name>, except: Option<Name>,
                 h: seq<Moment>, from: nat)
    requires SamePrivate(d, d', except) && (mine.Some? ==> kept == mine || except == mine)
    requires except.Some? && except.value in d'.entries && kept != except ==>
               Seen(h, from, Leaves(except.value)) || (except.value in d.entries && mine != except)
    ensures Tidy(d, mine, d', kept, h, from)
  {
    forall n <- d'.entries | n.Private() && except != Some(n) ensures n in d.entries {
      assert Lookup(d'.entries, n) == Lookup(d.entries, n);
    }
  }

  lemma NamesStay(d: Disk, l: Ledger, quiet: bool, m: Moment)
    requires m.ledger == l && Meddled(d, m.before, quiet, l.created) && Ran(m)
    requires m.op.Nothing? || m.op.Failed? || m.op.Refused? || m.op.Wrote? || m.op.SyncedFile? || m.op.SyncedDirectory?
    ensures SameNames(d, m.after, quiet)
  {
  }

  /** A call changes only the private name it is about. */
  lemma PrivateStays(d: Disk, l: Ledger, quiet: bool, m: Moment, except: Option<Name>)
    requires m.ledger == l && Meddled(d, m.before, quiet, l.created) && Ran(m)
    requires m.op.Created? || m.op.Unlinked? ==> !m.op.name.Private() || except == Some(m.op.name)
    requires m.op.Linked? ==> !m.op.dst.Private() || except == Some(m.op.dst)
    requires m.op.Moved? ==> !m.op.src.Private() || except == Some(m.op.src)
    requires m.op.Moved? ==> !m.op.dst.Private() || except == Some(m.op.dst)
    ensures SamePrivate(d, m.after, except)
  {
  }

  /** Unlinking a private name: it went, or the call failed and the history shows it. */
  lemma UnlinkLeaves(d: Disk, l: Ledger, h: seq<Moment>, quiet: bool, m: Moment, t: Name, from: nat)
    requires m.ledger == l && Meddled(d, m.before, quiet, l.created) && Ran(m)
    requires t.Private() && t in d.entries && m.call == Unlinking(t) && from <= |h|
    requires (m.op.Unlinked? && m.op.name == t) || m.op == Failed || (m.op == Refused && t !in m.before.entries)
    ensures m.op != Refused && SamePrivate(d, m.after, if m.op == Failed then None else Some(t))
    ensures if m.op == Failed then Seen(h + [m], from, Leaves(t)) else t !in m.after.entries
  {
    PrivateStays(d, l, quiet, m, if m.op == Failed then None else Some(t));
    OneMoreSeen(h, m, from, Leaves(t));
  }

  /** Renaming a private name over the destination: it went, or both names already linked one file. */
  lemma RenameLeaves(d: Disk, l: Ledger, h: seq<Moment>, quiet: bool, m: Moment, t: Name, from: nat)
    requires m.ledger == l && Meddled(d, m.before, quiet, l.created) && Ran(m)
    requires t.Private() && m.call == Renaming(t, Dest) && from <= |h|
    requires (m.op.Moved? && m.op.src == t && m.op.dst == Dest) || m.op in {Nothing, Failed, Refused}
    ensures SamePrivate(d, m.after, if Succeeded(m.op) then Some(t) else None)
    ensures m.op == Nothing ==> Seen(h + [m], from, Leaves(t))
    ensures m.op.Moved? ==> t !in m.after.entries
  {
    PrivateStays(d, l, quiet, m, if Succeeded(m.op) then Some(t) else None);
    OneMoreSeen(h, m, from, Leaves(t));
  }

  lemma PreparingStep(
      d: Disk, l: Ledger, h: seq<Moment>, quiet: bool, before: seq<Moment>, p: Plan, files: map<Name, File>, m: Moment)
    requires Preparing(d, l, h, quiet, before, p, files)
    requires m.ledger == l && Meddled(d, m.before, quiet, l.created) && Ran(m)
    requires Preparatory(m.op, files)
    requires m.op.Wrote? || m.op.SyncedFile? || m.op.Unlinked? ==> m.op.inode in l.created
    ensures Preparing(m.after, Note(l, m.op), h + [m], quiet, before, p, files)
  {
    OneMore(h, m, |before|, p);
    assert (h + [m])[..|before|] == before;
  }

  /** Since `from`, the destination was read and its bytes went to a new file under `b`. */
  predicate Saved(d: Disk, l: Ledger, h: seq<Moment>, from: nat, b: Name, k: File) {
    && k.inode in l.created && k.inode in d.data && d.data[k.inode] == k.content
    && Seen(h, from, ReadAs(Dest, k.content)) && Seen(h, from, Creates(b, k.inode))
  }

  ghost predicate BackedUp(d: Disk, l: Ledger, h: seq<Moment>, from: nat, b: Name) {
    exists k :: Saved(d, l, h, from, b, k)
  }

  lemma BytesStay(d: Disk, l: Ledger, alone: bool, m: Moment, i: Inode)
    requires i in l.created && i in d.data
    requires m.ledger == l && Meddled(d, m.before, alone, l.created) && Ran(m) && !m.op.Wrote?
    ensures i in Note(l, m.op).created && i in m.after.data && m.after.data[i] == d.data[i]
  {
  }

  lemma StaysBackedUp(d: Disk, l: Ledger, h: seq<Moment>, alone: bool, from: nat, b: Name, m: Moment)
    requires BackedUp(d, l, h, from, b) && from <= |h|
    requires m.ledger == l && Meddled(d, m.before, alone, l.created) && Ran(m) && !m.op.Wrote?
    ensures BackedUp(m.after, Note(l, m.op), h + [m], from, b)
  {
    var k :| Saved(d, l, h, from, b, k);
    BytesStay(d, l, alone, m, k.inode);
    OneMoreSeen(h, m, from, ReadAs(Dest, k.content));
    OneMoreSeen(h, m, from, Creates(b, k.inode));
    assert Saved(m.after, Note(l, m.op), h + [m], from, b, k);
  }

  /**
   The disk once `f` has been published over `p.loaded`, with the old bytes under `b`.
   `alone` says that nobody else is at work.
   */
  ghost predicate Replaced(
    d: Disk, l: Ledger, h: seq<Moment>, alone: bool, before: seq<Moment>, p: Plan, f: Inode, b: Option<Name>)
  {
    && l.aside == map[] && f in l.created
    && |before| <= |h| && h[..|before|] == before
    && f in d.data && d.data[f] == p.content
    && Seen(h, |before|, Publishes(p.content))
    && (b == None ==> AllSafe(h))
    && (alone || b == None ==> !DestAlone(h, |before|))
    && (alone ==>
          && AllSteady(h, |before|, p)
          && Lookup(d.entries, Dest) == Some(f) && Published(d, p, f)
          && (p.loaded.Some? ==> p.loaded.value in d.solid && d.solid[p.loaded.value] == p.original)
          && (Lookup(d.synced, Dest) == p.loaded || Lookup(d.synced, Dest) == Some(f))
          && (forall c <- d.pending | c.name == Dest :: c.inode == Some(f))
          && (p.loaded.Some? ==>
                && b.Some? && BackupEntry(d.synced, d, p, b.value) && BackupEntry(d.entries, d, p, b.value)
                && d.Holds(b.value, p.original)
                && forall c <- d.pending :: c.name != b.value))
  }

  /** What commit still calls once it has published. */
  lemma ReplacedStep(
      d: Disk, l: Ledger, h: seq<Moment>, alone: bool, before: seq<Moment>, p: Plan,
      f: Inode, b: Option<Name>, m: Moment)
    requires Replaced(d, l, h, alone, before, p, f, b)
    requires m.ledger == l && Meddled(d, m.before, alone, l.created) && Ran(m)
    requires m.op.Nothing? || m.op.Failed? || m.op.Refused? || m.op.SyncedDirectory?
             || (m.op.Unlinked? && m.op.name.Temp? && m.op.inode in l.created)
    ensures Replaced(m.after, Note(l, m.op), h + [m], alone, before, p, f, b)
  {
    OneMore(h, m, |before|, p);
    OneMoreSeen(h, m, |before|, Publishes(p.content));
    assert (h + [m])[..|before|] == before;
    if alone {
      assert p.loaded.Some? ==> BackupEntry(m.after.synced, m.after, p, b.value);
      assert DestReplaced(m.after, p);
    }
  }

  lemma ReplaceStaysSteady(d: Disk, p: Plan, t: Name, f: Inode, b: Name, k: Inode, after: Disk)
    requires d.synced == d.entries && d.pending == [] && Calm(d, p) && t.Temp? && b.Backup?
    requires f in d.solid && d.solid[f] == p.content && k in d.solid && d.solid[k] == p.original
    requires b in d.entries && d.entries[b] == k
    requires after == d.(entries := (d.entries - {t})[Dest := f], pending := [Change(t, None), Change(Dest, Some(f))])
    ensures Steady(after, p) && BackupEntry(after.synced, after, p, b) && BackupEntry(after.entries, after, p, b)
  {
    assert BackupEntry(after.synced, after, p, b);
    assert DestReplaced(after, p);
  }

  /** Publishing over the loaded file, backed up durably, keeps every crash safe. */
  lemma ReplacePublishes(
      d: Disk, l: Ledger, h: seq<Moment>, alone: bool, before: seq<Moment>, p: Plan,
      t: Name, f: File, b: Name, k: File, m: Moment)
    requires t.Temp? && b.Backup? && f.content == p.content && p.loaded.Some? && (alone ==> k.content == p.original)
    requires Preparing(d, l, h, alone, before, p, map[t := f, b := k])
    requires alone ==> d.synced == d.entries && d.pending == []
    requires m.ledger == l && Meddled(d, m.before, alone, l.created) && Ran(m)
    requires m.call == Renaming(t, Dest) && m.op.Moved? && m.op.src == t && m.op.dst == Dest
    ensures Replaced(m.after, Note(l, m.op), h + [m], alone, before, p, f.inode, Some(b))
  {
    OneMore(h, m, |before|, p);
    OneMoreSeen(h, m, |before|, Publishes(p.content));
    assert (h + [m])[..|before|] == before;
    assert t in map[t := f, b := k] && b in map[t := f, b := k];
    assert m.op.inode == f.inode && m.after.data == m.before.data && m.after.solid == m.before.solid;
    if alone {
      assert m.before == d && Calm(d, p);
      ReplaceStaysSteady(d, p, t, f.inode, b, k.inode, m.after);
    }
  }

  /** Publishing by a hard link, the destination having been absent. */
  lemma LinkPublishes(
      d: Disk, l: Ledger, h: seq<Moment>, alone: bool, before: seq<Moment>, p: Plan, t: Name, f: File, m: Moment)
    requires t.Temp? && f.content == p.content && (alone ==> p.loaded == None)
    requires Preparing(d, l, h, alone, before, p, map[t := f])
    requires m.ledger == l && Meddled(d, m.before, alone, l.created) && Ran(m)
    requires m.call == Linking(t, Dest) && m.op.Linked? && m.op.src == t && m.op.dst == Dest
    ensures Replaced(m.after, Note(l, m.op), h + [m], alone, before, p, f.inode, None)
    ensures m.op.inode == f.inode
  {
    OneMore(h, m, |before|, p);
    OneMoreSeen(h, m, |before|, Publishes(p.content));
    assert (h + [m])[..|before|] == before;
    assert t in map[t := f];
  }

  /** Every entry change has been synced. */
  predicate EntriesSynced(d: Disk) {
    d.synced == d.entries && d.pending == []
  }

  /** The destination and its bytes are durable, or its absence is. */
  predicate DestSettled(d: Disk) {
    && Lookup(d.synced, Dest) == Lookup(d.entries, Dest)
    && (forall c <- d.pending :: c.name != Dest)
    && (Dest in d.entries ==>
          var i := d.entries[Dest];
          i in d.data && i in d.solid && d.solid[i] == d.data[i])
  }

  /** What a person is told to run: a move over the destination, a forced removal, a sync. */
  datatype RecoveryCommand = MoveBack(src: Name) | RemoveDestination | SyncParent

  function AfterCommand(d: Disk, c: RecoveryCommand): Disk {
    match c
    case MoveBack(src) =>
      if src !in d.entries || src == Dest then d
      else if Lookup(d.entries, Dest) == Some(d.entries[src]) then Effect(d, Unlinked(src, d.entries[src]))
      else Effect(d, Moved(src, Dest, d.entries[src], Lookup(d.entries, Dest)))
    case RemoveDestination => if Dest in d.entries then Effect(d, Unlinked(Dest, d.entries[Dest])) else d
    case SyncParent => Effect(d, SyncedDirectory)
  }

  function AfterCommands(d: Disk, commands: seq<RecoveryCommand>): Disk {
    if commands == [] then d
    else AfterCommand(AfterCommands(d, commands[..|commands| - 1]), commands[|commands| - 1])
  }

  lemma CommandThenSync(d: Disk, c: RecoveryCommand)
    ensures AfterCommands(d, [c, SyncParent]) == Effect(AfterCommand(d, c), SyncedDirectory)
  {
    assert [c, SyncParent][..1] == [c] && [c][..0] == [];
    assert AfterCommands(d, [c]) == AfterCommand(d, c);
  }

  lemma MovesBack(d: Disk, src: Name)
    requires src in d.entries && src != Dest
    ensures var after := AfterCommands(d, [MoveBack(src), SyncParent]);
            && EntriesSynced(after) && src !in after.entries && Lookup(after.entries, Dest) == Some(d.entries[src])
            && after.data == d.data
  {
    CommandThenSync(d, MoveBack(src));
  }

  lemma Removes(d: Disk)
    ensures var after := AfterCommands(d, [RemoveDestination, SyncParent]);
            EntriesSynced(after) && Dest !in after.entries
  {
    CommandThenSync(d, RemoveDestination);
  }

  /** Any call may be followed by one that fails. */
  lemma FaultCanFollow(d: Disk, l: Ledger, call: Call, op: Op, next: Call) returns (h: seq<Moment>)
    requires d.Sound() && l.created <= d.data.Keys && Possible(d, op)
    ensures Trace(h, true) && |h| == 2
    ensures h[0] == Moment(l, d, call, op, Effect(d, op))
    ensures h[1] == Moment(Note(l, op), h[0].after, next, Failed, h[0].after)
  {
    EffectStaysSound(l, d, op);
    var first := Moment(l, d, call, op, Effect(d, op));
    h := [first, Moment(Note(l, op), first.after, next, Failed, first.after)];
    assert h[..1] == [first] && [first][..0] == [];
    assert Trace(h[..0], true) && Trace(h[..1], true);
  }

  /** The backup can be used up while the rollback fails: the sync after its rename fails. */
  lemma BackupCanBeUsedUp(d: Disk, l: Ledger, b: Name) returns (h: seq<Moment>)
    requires d.Sound() && l.created <= d.data.Keys && b.Backup? && b in d.entries
    requires Lookup(d.entries, Dest) != Some(d.entries[b])
    ensures Trace(h, true) && |h| == 2 && h[0].before == d && h[0].ledger == l
    ensures Shows(h[0], PutsBack(Some(b))) && h[1].call == SyncingDirectory && h[1].op == Failed
    ensures b !in h[1].after.entries && Lookup(h[1].after.entries, Dest) == Some(d.entries[b])
    ensures !EntriesSynced(h[1].after)
  {
    var op := Moved(b, Dest, d.entries[b], Lookup(d.entries, Dest));
    h := FaultCanFollow(d, l, Renaming(b, Dest), op, SyncingDirectory);
  }

  /** The identity of the published file can be missed: the stat after the link fails. */
  lemma IdentityCanBeMissed(d: Disk, l: Ledger, t: Name) returns (h: seq<Moment>)
    requires d.Sound() && l.created <= d.data.Keys && t.Temp? && t in d.entries && Dest !in d.entries
    ensures Trace(h, true) && |h| == 2 && h[0].before == d && h[0].ledger == l
    ensures Shows(h[0], Publishes(d.data[d.entries[t]])) && h[1].call == Stating(t) && h[1].op == Failed
    ensures Lookup(h[1].after.entries, Dest) == Some(d.entries[t]) && !Seen(h, 1, Identified(t))
  {
    h := FaultCanFollow(d, l, Linking(t, Dest), Linked(t, Dest, d.entries[t]), Stating(t));
    assert !Shows(h[1], Identified(t));
  }

  class ConfigTransaction {
    const directory: Directory
    const existed: bool
    const stamp: nat
    ghost const loaded: Option<Inode>   // the destination when it was loaded
    ghost const original: Bytes
    var temporary: Option<Name>
    var backup: Option<Name>
    var quarantine: Option<Name>
    var published: Option<Inode>
    var replaced: bool
    ghost var written: Inode            // the file commit publishes

    constructor (directory: Directory, existed: bool, stamp: nat)
      requires directory.Valid() && directory.history == []
      requires directory.ledger == Ledger({}, {}, map[])
      requires directory.quiet ==> existed == (Dest in directory.disk.entries) && DestSettled(directory.disk)
      ensures Valid() && Pristine() && Untouched()
      ensures this.directory == directory && this.existed == existed
      ensures directory.quiet ==> loaded == Lookup(directory.disk.entries, Dest)
      ensures directory.quiet && existed ==> directory.disk.Holds(Dest, original)
    {
      this.directory, this.existed, this.stamp := directory, existed, stamp;
      loaded := Lookup(directory.disk.entries, Dest);
      original := if Dest in directory.disk.entries then directory.disk.data[directory.disk.entries[Dest]] else [];
      temporary, backup, quarantine, published, replaced := None, None, None, None, false;
      written := 0;
    }

    /** The transaction as `begin` hands it out. */
    predicate Pristine()
      reads this
    {
      temporary == None && backup == None && quarantine == None && published == None && !replaced
    }

    /** Nobody has changed the loaded destination, if nobody else is at work. */
    ghost predicate Untouched()
      reads this, directory
    {
      && directory.ledger.aside == map[] && AllSafe(directory.history)
      && (directory.quiet ==>
            Calm(directory.disk, PlanFor([])) && (loaded.Some? ==> loaded.value !in directory.ledger.created))
    }

    ghost function PlanFor(content: Bytes): Plan {
      Plan(loaded, original, content)
    }

    /** The destination as it was when setup loaded it. */
    ghost predicate AsLoaded(d: Disk) {
      if existed then Dest in d.entries && d.entries[Dest] in d.data && d.data[d.entries[Dest]] == original
      else Dest !in d.entries
    }

    /** What holds between any two calls, also inside a method. */
    ghost predicate Base()
      reads this, directory
    {
      && directory.Valid()
      && (temporary.Some? ==> temporary.value.Temp?)
      && (backup.Some? ==> backup.value.Backup?)
      && (published.Some? ==> published.value in directory.ledger.created)
      && (existed ==> quarantine == None) && (!existed ==> backup == None)
      && Guarded(directory.disk, directory.ledger, quarantine)
      && (!existed ==> AllSafe(directory.history))
    }

    /** The loaded file is not one the transaction made. */
    ghost predicate LoadedIsForeign(d: Disk, l: Ledger) {
      loaded.Some? == existed && (loaded.Some? ==> loaded.value !in l.created && loaded.value in d.data)
    }

    lemma LoadedStays(d: Disk, l: Ledger, m: Moment)
      requires directory.quiet ==> LoadedIsForeign(d, l)
      requires m.ledger == l && Meddled(d, m.before, directory.quiet, l.created) && Ran(m)
      ensures directory.quiet ==> LoadedIsForeign(m.after, Note(l, m.op))
    {
    }

    /** Where everything is when no other process interferes. */
    ghost predicate QuietOk()
      reads this, directory
    {
      QuietAt(directory.disk, directory.ledger)
    }

    ghost predicate QuietAt(d: Disk, l: Ledger)
      reads this
    {
      && LoadedIsForeign(d, l)
      && (!replaced ==> AsLoaded(d))
      && (replaced && existed ==>
            if backup.Some? then d.Holds(backup.value, original) else AsLoaded(d))
      && (replaced && !existed ==>
            match quarantine
            case None =>
              && (Dest in d.entries ==>
                    d.entries[Dest] in l.created && (published.Some? ==> d.entries[Dest] == published.value))
              && (published == None ==> Dest in d.entries)
            case Some(q) =>
              Dest !in d.entries && q in l.aside && (published.Some? ==> l.aside[q] == published.value))
    }

    ghost predicate Valid()
      reads this, directory
    {
      Base() && (directory.quiet ==> QuietOk())
    }

    // -- Commit ----------------------------------------------------------------

    ghost predicate Prepares(before: seq<Moment>, p: Plan, files: map<Name, File>)
      reads directory
    {
      && directory.Valid()
      && Preparing(directory.disk, directory.ledger, directory.history, directory.quiet, before, p, files)
    }

    /** One preparatory call has been made: carry the invariant over it. */
    lemma Prepared(was: (Disk, Ledger, seq<Moment>), before: seq<Moment>, p: Plan, files: map<Name, File>, m: Moment)
      requires Preparing(was.0, was.1, was.2, directory.quiet, before, p, files)
      requires was.1.created <= was.0.data.Keys
      requires directory.Valid() && directory.history == was.2 + [m] && m.after == directory.disk
      requires m.ledger == was.1 && directory.ledger == Note(m.ledger, m.op)
      requires Meddled(was.0, m.before, directory.quiet, was.1.created)
      requires Possible(m.before, m.op) && m.after == Effect(m.before, m.op)
      requires Preparatory(m.op, files)
      requires m.op.Wrote? || m.op.SyncedFile? || m.op.Unlinked? ==> m.op.inode in m.ledger.created
      ensures Prepares(before, p, files)
      ensures Smooth(directory.history, |before|) == (Smooth(was.2, |before|) && !Hitch(m.op))
    {
      OneMore(was.2, m, |before|, p);
      PreparingStep(was.0, was.1, was.2, directory.quiet, before, p, files, m);
    }

    /** Write the whole content, however little each call writes. */
    method WriteAll(i: Inode, content: Bytes, ghost before: seq<Moment>, ghost p: Plan, ghost files: map<Name, File>)
      returns (ok: bool)
      requires Prepares(before, p, files)
      requires i in directory.ledger.created && directory.disk.data[i] == []
      requires forall n <- files :: files[n].inode != i
      modifies directory
      ensures Prepares(before, p, files) && old(directory.history) <= directory.history
      ensures i in directory.ledger.created && i in directory.disk.data
      ensures !ok ==> !Smooth(directory.history, |before|)
      ensures ok ==> directory.disk.data[i] == content
      ensures SameNames(old(directory.disk), directory.disk, directory.quiet)
    {
      var offset := 0;
      while offset < |content|
        invariant 0 <= offset <= |content|
        invariant Prepares(before, p, files) && old(directory.history) <= directory.history
        invariant i in directory.ledger.created && i in directory.disk.data
        invariant directory.disk.data[i] == content[..offset]
        invariant SameNames(old(directory.disk), directory.disk, directory.quiet)
      {
        ghost var here := directory.View();
        var r, written, m := directory.Write(i, content[offset..]);
        NamesStay(here.0, here.1, directory.quiet, m);
        Prepared(here, before, p, files, m);
        if r == Fault || written == 0 {
          return false;
        }
        offset := offset + written;
      }
      return true;
    }

    /** Open a new file exclusively. */
    method OpenNewFile(name: Name, ghost before: seq<Moment>, ghost p: Plan, ghost files: map<Name, File>)
      returns (r: Outcome, i: Inode)
      requires Prepares(before, p, files) && name != Dest
      modifies directory
      ensures Prepares(before, p, files) && old(directory.history) <= directory.history
      ensures r in {Done, Exists, Fault}
      ensures r != Done ==> !Smooth(directory.history, |before|)
      ensures r == Exists ==> Seen(directory.history, |before|, Taken(name))
      ensures r == Done ==> Seen(directory.history, |before|, Creates(name, i))
      ensures r == Done ==>
                && Lookup(directory.disk.entries, name) == Some(i)
                && i in directory.ledger.created && directory.disk.data[i] == []
                && forall n <- files :: files[n].inode != i
      ensures SamePrivate(old(directory.disk), directory.disk, if r == Done then Some(name) else None)
      ensures Smooth(directory.history, |before|) ==> old(Smooth(directory.history, |before|))
    {
      ghost var was := directory.View();
      ghost var m;
      r, i, m := directory.Create(name);
      Prepared(was, before, p, files, m);
      PrivateStays(was.0, was.1, directory.quiet, m, if r == Done then Some(name) else None);
      if r == Exists {
        assert Shows(m, Taken(name));
        OneMoreSeen(was.2, m, |before|, Taken(name));
      } else if r == Done {
        assert Shows(m, Creates(name, i));
        OneMoreSeen(was.2, m, |before|, Creates(name, i));
      }
    }

    /** Set the mode of a new file; its bytes and every name stay as they are. */
    method ChangeFileMode(i: Inode, ghost before: seq<Moment>, ghost p: Plan, ghost files: map<Name, File>)
      returns (ok: bool)
      requires Prepares(before, p, files)
      requires i in directory.ledger.created && i in directory.disk.data
      modifies directory
      ensures Prepares(before, p, files) && old(directory.history) <= directory.history
      ensures directory.ledger == old(directory.ledger)
      ensures i in directory.disk.data && directory.disk.data[i] == old(directory.disk.data[i])
      ensures !ok ==> !Smooth(directory.history, |before|)
      ensures SameNames(old(directory.disk), directory.disk, directory.quiet)
    {
      ghost var was := directory.View();
      var r, m := directory.Attempt(ChangingMode);
      NamesStay(was.0, was.1, directory.quiet, m);
      Prepared(was, before, p, files, m);
      ok := r != Fault;
    }

    method WriteOpenFile(i: Inode, content: Bytes, ghost before: seq<Moment>, ghost p: Plan,
                         ghost files: map<Name, File>)
      returns (ok: bool)
      requires Prepares(before, p, files)
      requires i in directory.ledger.created && directory.disk.data[i] == []
      requires forall n <- files :: files[n].inode != i
      modifies directory
      ensures Prepares(before, p, files) && old(directory.history) <= directory.history
      ensures i in directory.ledger.created && i in directory.disk.data
      ensures !ok ==> !Smooth(directory.history, |before|)
      ensures ok ==> directory.disk.data[i] == content
      ensures ok && directory.quiet ==> i in directory.disk.solid && directory.disk.solid[i] == content
      ensures SameNames(old(directory.disk), directory.disk, directory.quiet)
    {
      ok := ChangeFileMode(i, before, p, files);
      if !ok {
        return;
      }
      ok := WriteAll(i, content, before, p, files);
      if !ok {
        return;
      }
      ok := SyncOpenFile(i, content, before, p, files);
    }

    method SyncOpenFile(i: Inode, ghost content: Bytes, ghost before: seq<Moment>, ghost p: Plan,
                        ghost files: map<Name, File>)
      returns (ok: bool)
      requires Prepares(before, p, files)
      requires i in directory.ledger.created && i in directory.disk.data && directory.disk.data[i] == content
      modifies directory
      ensures Prepares(before, p, files) && old(directory.history) <= directory.history
      ensures i in directory.ledger.created && i in directory.disk.data && directory.disk.data[i] == content
      ensures !ok ==> !Smooth(directory.history, |before|)
      ensures ok && directory.quiet ==> i in directory.disk.solid && directory.disk.solid[i] == content
      ensures SameNames(old(directory.disk), directory.disk, directory.quiet)
    {
      ghost var was := directory.View();
      var r, m := directory.SyncFile(i);
      NamesStay(was.0, was.1, directory.quiet, m);
      Prepared(was, before, p, files, m);
      ok := r == Done;
    }

    /** A uniquely named temporary file with the whole content. */
    method WriteTemporary(content: Bytes, ghost before: seq<Moment>, ghost p: Plan) returns (ok: bool, ghost file: File)
      requires Prepares(before, p, map[]) && temporary == None
      modifies directory, this`temporary
      ensures Prepares(before, p, map[])
      ensures temporary.Some? ==>
                && temporary.value.Temp? && temporary.value in directory.disk.entries
                && directory.disk.entries[temporary.value] in directory.ledger.created
      ensures SamePrivate(old(directory.disk), directory.disk, temporary) && old(directory.history) <= directory.history
      ensures !ok ==> !Smooth(directory.history, |before|)
      ensures ok ==> temporary.Some? && file.content == content
                     && Prepares(before, p, map[temporary.value := file])
    {
      var attempt := 0;
      file := File(0, content);
      while attempt < ALLOCATION_ATTEMPTS
        invariant Prepares(before, p, map[]) && temporary == None && old(directory.history) <= directory.history
        invariant SamePrivate(old(directory.disk), directory.disk, None)
        invariant attempt > 0 ==> !Smooth(directory.history, |before|)
      {
        var token: int := *;
        var r;
        r, file := TryTemporary(Temp(if token < 0 then 0 else token), content, before, p);
        if r != Exists {
          return r == Done, file;
        }
        attempt := attempt + 1;
      }
      ok := false;
    }

    /** A try to create one; its name is recorded as soon as it is there. */
    method TryTemporary(name: Name, content: Bytes, ghost before: seq<Moment>, ghost p: Plan)
      returns (r: Outcome, ghost file: File)
      requires Prepares(before, p, map[]) && temporary == None && name.Temp?
      modifies directory, this`temporary
      ensures Prepares(before, p, map[]) && old(directory.history) <= directory.history
      ensures temporary.Some? ==>
                && temporary.value.Temp? && temporary.value in directory.disk.entries
                && directory.disk.entries[temporary.value] in directory.ledger.created
      ensures SamePrivate(old(directory.disk), directory.disk, temporary)
      ensures r != Done ==> !Smooth(directory.history, |before|)
      ensures r == Exists ==> temporary == None
      ensures r == Done ==> temporary.Some? && file.content == content
                            && Prepares(before, p, map[temporary.value := file])
    {
      var i;
      r, i := OpenNewFile(name, before, p, map[]);
      file := File(i, content);
      if r == Done {
        temporary := Some(name);
        var ok := WriteOpenFile(i, content, before, p, map[]);
        assert Lookup(directory.disk.entries, name) == Some(i);
        r := if ok then Done else Fault;
      }
    }

    /** A new file with the whole content, unless the name is taken. */
    method WriteNewFile(name: Name, content: Bytes, ghost before: seq<Moment>, ghost p: Plan,
                        ghost files: map<Name, File>)
      returns (r: Outcome, ghost file: File)
      requires Prepares(before, p, files) && name.Backup? && name !in files
      modifies directory
      ensures Prepares(before, p, files) && old(directory.history) <= directory.history
      ensures file.content == content && r in {Done, Exists, Fault}
      ensures SamePrivate(old(directory.disk), directory.disk, None)
      ensures r != Done ==> !Smooth(directory.history, |before|)
      ensures r == Done ==>
                Prepares(before, p, files[name := file]) && Seen(directory.history, |before|, Creates(name, file.inode))
      ensures r == Exists ==> Seen(directory.history, |before|, Taken(name))
    {
      var i;
      r, i := OpenNewFile(name, before, p, files);
      file := File(i, content);
      if r != Done {
        return;
      }
      ghost var was := directory.history;
      var ok := WriteOpenFile(i, content, before, p, files);
      StaysSeen(was, directory.history, |before|, Creates(name, i));
      if ok {
        KeepsMore(directory.disk, directory.ledger, directory.quiet, files, name, file);
      }
      r := if ok then Done else Fault;
    }

    /** A file with the bytes read from the destination, under the first dated name that was free. */
    method WriteBackup(ghost before: seq<Moment>, ghost p: Plan, ghost files: map<Name, File>)
      returns (name: Option<Name>, ghost file: File)
      requires Prepares(before, p, files) && p.loaded == loaded && p.original == original
      requires directory.quiet ==> loaded.Some?
      requires forall n <- files :: n.Temp?
      modifies directory
      ensures Prepares(before, p, files)
      ensures SamePrivate(old(directory.disk), directory.disk, None) && old(directory.history) <= directory.history
      ensures name == None ==> !Smooth(directory.history, |before|)
      ensures name.Some? ==>
                && name.value.Backup? && name.value.stamp == stamp && Prepares(before, p, files[name.value := file])
                && Seen(directory.history, |before|, ReadAs(Dest, file.content))
                && Seen(directory.history, |before|, Creates(name.value, file.inode))
                && AllTaken(directory.history, |before|, stamp, name.value.suffix)
                && name.value.suffix < ALLOCATION_ATTEMPTS
      ensures name.Some? && directory.quiet ==> file.content == original
    {
      var read, content := ReadDestination(before, p, files);
      file := File(0, content);
      if !read {
        return None, file;
      }
      ghost var looked := directory.history;
      name, file := WriteCopy(content, before, p, files);
      StaysSeen(looked, directory.history, |before|, ReadAs(Dest, content));
    }

    method ReadDestination(ghost before: seq<Moment>, ghost p: Plan, ghost files: map<Name, File>)
      returns (ok: bool, content: Bytes)
      requires Prepares(before, p, files) && (directory.quiet ==> p.loaded.Some?)
      modifies directory
      ensures Prepares(before, p, files)
      ensures SamePrivate(old(directory.disk), directory.disk, None) && old(directory.history) <= directory.history
      ensures !ok ==> !Smooth(directory.history, |before|)
      ensures ok ==> Seen(directory.history, |before|, ReadAs(Dest, content))
      ensures ok && directory.quiet ==> content == p.original
    {
      ghost var was := directory.View();
      var r;
      ghost var m;
      r, content, m := directory.Read(Dest);
      Prepared(was, before, p, files, m);
      PrivateStays(was.0, was.1, directory.quiet, m, None);
      OneMoreSeen(was.2, m, |before|, ReadAs(Dest, content));
      ok := r == Done;
    }

    /** The copy itself: the first name that is free. */
    method WriteCopy(content: Bytes, ghost before: seq<Moment>, ghost p: Plan, ghost files: map<Name, File>)
      returns (name: Option<Name>, ghost file: File)
      requires Prepares(before, p, files)
      requires forall n <- files :: n.Temp?
      modifies directory
      ensures Prepares(before, p, files) && old(directory.history) <= directory.history && file.content == content
      ensures SamePrivate(old(directory.disk), directory.disk, None)
      ensures name == None ==> !Smooth(directory.history, |before|)
      ensures name.Some? ==>
                && name.value.Backup? && name.value.stamp == stamp && Prepares(before, p, files[name.value := file])
                && Seen(directory.history, |before|, Creates(name.value, file.inode))
                && AllTaken(directory.history, |before|, stamp, name.value.suffix)
                && name.value.suffix < ALLOCATION_ATTEMPTS
    {
      file := File(0, content);
      var suffix := 0;
      while suffix < ALLOCATION_ATTEMPTS
        invariant Prepares(before, p, files) && old(directory.history) <= directory.history && file.content == content
        invariant SamePrivate(old(directory.disk), directory.disk, None)
        invariant suffix > 0 ==> !Smooth(directory.history, |before|)
        invariant AllTaken(directory.history, |before|, stamp, suffix)
      {
        var r;
        r, file := TryCopy(suffix, content, before, p, files);
        if r == Done {
          return Some(Backup(stamp, suffix)), file;
        }
        if r != Exists {
          return None, file;
        }
        suffix := suffix + 1;
      }
      name := None;
    }

    method TryCopy(suffix: nat, content: Bytes, ghost before: seq<Moment>, ghost p: Plan, ghost files: map<Name, File>)
      returns (r: Outcome, ghost file: File)
      requires Prepares(before, p, files) && (forall n <- files :: n.Temp?)
      requires AllTaken(directory.history, |before|, stamp, suffix)
      modifies directory
      ensures Prepares(before, p, files) && old(directory.history) <= directory.history && file.content == content
      ensures AllTaken(directory.history, |before|, stamp, if r == Exists then suffix + 1 else suffix)
      ensures SamePrivate(old(directory.disk), directory.disk, None)
      ensures r != Done ==> !Smooth(directory.history, |before|)
      ensures r == Done ==>
                && Prepares(before, p, files[Backup(stamp, suffix) := file])
                && Seen(directory.history, |before|, Creates(Backup(stamp, suffix), file.inode))
    {
      ghost var was := directory.history;
      r, file := WriteNewFile(Backup(stamp, suffix), content, before, p, files);
      StayTaken(was, directory.history, |before|, stamp, suffix);
    }

    /** `temporary` names a file of ours. */
    ghost predicate TemporaryOk()
      reads this, directory
    {
      temporary.Some? ==>
        && temporary.value.Temp? && temporary.value in directory.disk.entries
        && directory.disk.entries[temporary.value] in directory.ledger.created
    }

    /** The two halves of a commit: before and after the new file is at the destination. */
    ghost predicate Committing(before: seq<Moment>, p: Plan)
      reads this, directory
    {
      TemporaryOk() && Underway(before, p)
    }

    /** What no call on the directory changes. */
    ghost predicate Settled(p: Plan)
      reads this
    {
      quarantine == None && (backup.Some? ==> existed && backup.value.Backup?) && p == PlanFor(p.content)
    }

    /** The same without the temporary name. */
    ghost predicate Underway(before: seq<Moment>, p: Plan)
      reads this, directory
    {
      && directory.Valid() && Settled(p)
      && (directory.quiet ==> LoadedIsForeign(directory.disk, directory.ledger))
      && if !replaced then published == None && Prepares(before, p, map[])
         else
           && (if existed then backup.Some? else backup == None)
           && (published.Some? ==> published.value == written)
           && Landed(before, p)
    }

    /** `written` is at the destination, and what it replaced is in the backup. */
    ghost predicate Landed(before: seq<Moment>, p: Plan)
      reads this`backup, this`written, directory
    {
      && (backup.Some? ==>
            BackedUp(directory.disk, directory.ledger, directory.history, |before|, backup.value))
      && Replaced(directory.disk, directory.ledger, directory.history, directory.quiet, before, p, written, backup)
    }

    /** One call has been made after publishing: carry the invariant over it. */
    lemma StillUnderway(was: (Disk, Ledger, seq<Moment>), before: seq<Moment>, p: Plan, m: Moment)
      requires replaced && Settled(p) && (published.Some? ==> published.value == written)
      requires if existed then backup.Some? else backup == None
      requires directory.quiet ==> LoadedIsForeign(was.0, was.1)
      requires Replaced(was.0, was.1, was.2, directory.quiet, before, p, written, backup)
      requires existed ==> BackedUp(was.0, was.1, was.2, |before|, backup.value)
      requires directory.Valid() && directory.history == was.2 + [m] && m.after == directory.disk
      requires m.ledger == was.1 && directory.ledger == Note(m.ledger, m.op)
      requires Meddled(was.0, m.before, directory.quiet, was.1.created) && Ran(m)
      requires m.op.Nothing? || m.op.Failed? || m.op.Refused? || m.op.SyncedDirectory?
               || (m.op.Unlinked? && m.op.name.Temp? && m.op.inode in was.1.created)
      ensures Underway(before, p)
      ensures Smooth(directory.history, |before|) == (Smooth(was.2, |before|) && !Hitch(m.op))
    {
      OneMore(was.2, m, |before|, p);
      LoadedStays(was.0, was.1, m);
      if existed {
        StaysBackedUp(was.0, was.1, was.2, directory.quiet, |before|, backup.value, m);
      }
      ReplacedStep(was.0, was.1, was.2, directory.quiet, before, p, written, backup, m);
    }

    /** Make the new entry durable. */
    method SyncPublished(ghost before: seq<Moment>, ghost p: Plan) returns (ok: bool)
      requires Committing(before, p) && replaced
      modifies directory
      ensures Committing(before, p) && old(directory.history) <= directory.history
      ensures SamePrivate(old(directory.disk), directory.disk, None)
      ensures ok && directory.quiet ==> EntriesSynced(directory.disk)
      ensures !ok ==> !Smooth(directory.history, |before|)
    {
      ghost var was := directory.View();
      var r, m := directory.SyncDirectory();
      StillUnderway(was, before, p, m);
      PrivateStays(was.0, was.1, directory.quiet, m, None);
      ok := r == Done;
    }

    /** Unlink the temporary name. */
    method UnlinkTemporary(ghost before: seq<Moment>, ghost p: Plan) returns (r: Outcome)
      requires Committing(before, p) && temporary.Some?
      modifies directory
      ensures Underway(before, p) && (r != Done ==> TemporaryOk() && !Smooth(directory.history, |before|))
      ensures old(directory.history) <= directory.history
      ensures SamePrivate(old(directory.disk), directory.disk, if r == Done then temporary else None)
      ensures r != Done ==> Seen(directory.history, |before|, Leaves(temporary.value))
      ensures r == Done ==> temporary.value !in directory.disk.entries
      ensures Smooth(directory.history, |before|) ==> old(Smooth(directory.history, |before|))
    {
      ghost var was := directory.View();
      ghost var m;
      r, m := directory.Unlink(temporary.value);
      UnlinkLeaves(was.0, was.1, was.2, directory.quiet, m, temporary.value, |before|);
      if replaced {
        StillUnderway(was, before, p, m);
      } else {
        Prepared(was, before, p, map[], m);
      }
    }

    /** Best effort: a failure to remove the temporary file is ignored. */
    method CleanupTemporary(ghost before: seq<Moment>, ghost p: Plan)
      requires Committing(before, p)
      modifies directory, this`temporary
      ensures Committing(before, p) && temporary == None
      ensures old(directory.history) <= directory.history
      ensures Tidy(old(directory.disk), old(temporary), directory.disk, None, directory.history, |before|)
      ensures Smooth(directory.history, |before|) ==> old(Smooth(directory.history, |before|))
    {
      if temporary == None {
        TidyStep(directory.disk, None, directory.disk, None, None, directory.history, |before|);
        return;
      }
      ghost var was := directory.disk;
      var _ := UnlinkTemporary(before, p);
      TidyStep(was, temporary, directory.disk, None, temporary, directory.history, |before|);
      temporary := None;
    }

    /** Back the loaded file up and make the backup's name durable. */
    method SaveBackup(ghost t: Name, ghost f: File, ghost before: seq<Moment>, ghost p: Plan)
      returns (ok: bool, ghost file: File)
      requires Prepares(before, p, map[t := f]) && t.Temp? && backup == None
      requires p == PlanFor(p.content) && (directory.quiet ==> loaded.Some?)
      modifies directory, this`backup
      ensures backup.Some? ==> backup.value.Backup?
      ensures Prepares(before, p, map[t := f])
      ensures SamePrivate(old(directory.disk), directory.disk, None) && old(directory.history) <= directory.history
      ensures !ok ==> !Smooth(directory.history, |before|)
      ensures ok ==> backup.Some? && Prepares(before, p, map[t := f, backup.value := file])
      ensures ok ==> BackedUp(directory.disk, directory.ledger, directory.history, |before|, backup.value)
      ensures ok && directory.quiet ==> EntriesSynced(directory.disk) && file.content == original
    {
      var name;
      name, file := WriteBackup(before, p, map[t := f]);
      if name == None {
        return false, file;
      }
      backup := name;
      ghost var files := map[t := f, name.value := file];
      assert map[t := f][name.value := file] == files;
      assert name.value in files;
      assert Saved(directory.disk, directory.ledger, directory.history, |before|, name.value, file);
      ghost var was := directory.View();
      var r, m := directory.SyncDirectory();
      Prepared(was, before, p, files, m);
      PrivateStays(was.0, was.1, directory.quiet, m, None);
      StaysBackedUp(was.0, was.1, was.2, directory.quiet, |before|, name.value, m);
      KeepsLess(directory.disk, directory.ledger, directory.quiet, map[t := f], name.value, file);
      ok := r == Done;
    }

    method RenameOver(ghost f: File, ghost k: File, ghost before: seq<Moment>, ghost p: Plan) returns (ok: bool)
      requires Settled(p) && existed && temporary.Some? && temporary.value.Temp? && backup.Some?
      requires f.content == p.content && Prepares(before, p, map[temporary.value := f, backup.value := k])
      requires directory.quiet ==>
                 && LoadedIsForeign(directory.disk, directory.ledger)
                 && k.content == original && EntriesSynced(directory.disk)
      requires BackedUp(directory.disk, directory.ledger, directory.history, |before|, backup.value)
      requires written == f.inode
      modifies directory
      ensures directory.Valid() && (directory.quiet ==> LoadedIsForeign(directory.disk, directory.ledger))
      ensures old(directory.history) <= directory.history
      ensures Tidy(old(directory.disk), temporary, directory.disk, if ok then None else temporary,
                   directory.history, |before|)
      ensures ok && directory.quiet ==> Spotless(old(directory.disk), temporary, directory.disk)
      ensures ok ==> Landed(before, p)
      ensures !ok ==> Prepares(before, p, map[]) && TemporaryOk() && !Smooth(directory.history, |before|)
    {
      ghost var was := directory.View();
      ghost var files := map[temporary.value := f, backup.value := k];
      assert temporary.value in files && backup.value in files;
      var r, m := directory.Rename(temporary.value, Dest);
      ok := r == Done;
      LoadedStays(was.0, was.1, m);
      RenameLeaves(was.0, was.1, was.2, directory.quiet, m, temporary.value, |before|);
      assert directory.quiet ==> m.op != Nothing;
      MovedTidily(was.0, temporary, directory.disk, ok, directory.history, |before|);
      if ok {
        ReplacedAt(was, f, k, before, p, m);
        StaysBackedUp(was.0, was.1, was.2, directory.quiet, |before|, backup.value, m);
      } else {
        Prepared(was, before, p, files, m);
        assert map[temporary.value := f][backup.value := k] == files;
        KeepsLess(directory.disk, directory.ledger, directory.quiet, map[temporary.value := f], backup.value, k);
        Forget(before, p, temporary.value, f);
      }
    }

    lemma MovedTidily(d: Disk, t: Option<Name>, d': Disk, gone: bool, h: seq<Moment>, from: nat)
      requires SamePrivate(d, d', if gone then t else None) && t.Some?
      requires gone && t.value in d'.entries ==> Seen(h, from, Leaves(t.value))
      ensures Tidy(d, t, d', if gone then None else t, h, from)
      ensures gone && t.value !in d'.entries ==> Spotless(d, t, d')
    {
      TidyStep(d, t, d', if gone then None else t, if gone then t else None, h, from);
      forall n <- d'.entries | n.Private() && t != Some(n) ensures n in d.entries {
        assert Lookup(d'.entries, n) == Lookup(d.entries, n);
      }
    }

    /** Rename the temporary file over the destination. */
    method ReplaceDestination(ghost f: File, ghost k: File, ghost before: seq<Moment>, ghost p: Plan) returns (ok: bool)
      requires Settled(p) && existed && temporary.Some? && temporary.value.Temp? && backup.Some?
      requires !replaced && published == None
      requires f.content == p.content && Prepares(before, p, map[temporary.value := f, backup.value := k])
      requires directory.quiet ==>
                 && LoadedIsForeign(directory.disk, directory.ledger)
                 && k.content == original && EntriesSynced(directory.disk)
      requires BackedUp(directory.disk, directory.ledger, directory.history, |before|, backup.value)
      modifies directory, this`written, this`replaced, this`temporary
      ensures Committing(before, p) && published == None && ok == replaced
      ensures ok ==> temporary == None
      ensures old(directory.history) <= directory.history
      ensures Tidy(old(directory.disk), old(temporary), directory.disk, temporary, directory.history, |before|)
      ensures ok && directory.quiet ==> Spotless(old(directory.disk), old(temporary), directory.disk)
      ensures !ok ==> !Smooth(directory.history, |before|)
    {
      written := f.inode;
      ok := RenameOver(f, k, before, p);
      if ok {
        NoteReplaced(before, p);
      }
    }

    method NoteReplaced(ghost before: seq<Moment>, ghost p: Plan)
      requires directory.Valid() && Settled(p) && existed && backup.Some? && published == None && Landed(before, p)
      requires directory.quiet ==> LoadedIsForeign(directory.disk, directory.ledger)
      modifies this`replaced, this`temporary
      ensures Committing(before, p) && replaced && temporary == None
    {
      replaced := true;
      temporary := None;
    }

    /** The rename has published `f`. */
    lemma ReplacedAt(was: (Disk, Ledger, seq<Moment>), f: File, k: File, before: seq<Moment>, p: Plan, m: Moment)
      requires temporary.Some? && temporary.value.Temp? && backup.Some? && backup.value.Backup?
      requires directory.quiet ==> p.loaded.Some? && k.content == p.original && EntriesSynced(was.0)
      requires f.content == p.content
      requires Preparing(was.0, was.1, was.2, directory.quiet, before, p, map[temporary.value := f, backup.value := k])
      requires m.ledger == was.1 && Meddled(was.0, m.before, directory.quiet, was.1.created) && Ran(m)
      requires m.call == Renaming(temporary.value, Dest) && temporary.value in m.before.entries
      requires if Lookup(m.before.entries, Dest) == Some(m.before.entries[temporary.value]) then m.op == Nothing
               else m.op.Moved? && m.op.src == temporary.value && m.op.dst == Dest
      ensures Replaced(m.after, Note(m.ledger, m.op), was.2 + [m], directory.quiet, before, p, f.inode, backup)
    {
      var files := map[temporary.value := f, backup.value := k];
      assert temporary.value in files && backup.value in files;
      OneMore(was.2, m, |before|, p);
      OneMoreSeen(was.2, m, |before|, Publishes(p.content));
      assert (was.2 + [m])[..|before|] == before;
      if m.op.Moved? && p.loaded.Some? {
        ReplacePublishes(was.0, was.1, was.2, directory.quiet, before, p, temporary.value, f, backup.value, k, m);
      }
    }

    method LinkOver(ghost f: File, ghost before: seq<Moment>, ghost p: Plan) returns (ok: bool)
      requires Settled(p) && !existed && temporary.Some? && temporary.value.Temp? && backup == None
      requires f.content == p.content && Prepares(before, p, map[temporary.value := f]) && written == f.inode
      requires directory.quiet ==> LoadedIsForeign(directory.disk, directory.ledger)
      modifies directory
      ensures directory.Valid() && (directory.quiet ==> LoadedIsForeign(directory.disk, directory.ledger))
      ensures old(directory.history) <= directory.history && TemporaryOk()
      ensures SamePrivate(old(directory.disk), directory.disk, None)
      ensures ok ==> Landed(before, p) && directory.disk.entries[temporary.value] == written
      ensures !ok ==> Prepares(before, p, map[]) && !Smooth(directory.history, |before|)
    {
      ghost var was := directory.View();
      assert temporary.value in map[temporary.value := f];
      var r, m := directory.Link(temporary.value, Dest);
      ok := r == Done;
      LoadedStays(was.0, was.1, m);
      PrivateStays(was.0, was.1, directory.quiet, m, None);
      if ok {
        LinkPublishes(was.0, was.1, was.2, directory.quiet, before, p, temporary.value, f, m);
      } else {
        Prepared(was, before, p, map[temporary.value := f], m);
        Forget(before, p, temporary.value, f);
      }
    }

    /** Link the temporary file at the absent destination. */
    method LinkDestination(ghost f: File, ghost before: seq<Moment>, ghost p: Plan) returns (ok: bool)
      requires Committing(before, p) && !replaced && !existed && temporary.Some? && backup == None
      requires Prepares(before, p, map[temporary.value := f]) && f.content == p.content
      modifies directory, this
      ensures Committing(before, p) && published == None && ok == replaced
      ensures temporary == old(temporary) && backup == None
      ensures SamePrivate(old(directory.disk), directory.disk, None) && old(directory.history) <= directory.history
      ensures ok ==> written == f.inode && directory.disk.entries[temporary.value] == written
      ensures !ok ==> !Smooth(directory.history, |before|)
    {
      written := f.inode;
      ok := LinkOver(f, before, p);
      if ok {
        replaced := true;
      }
    }

    /** The identity of the published file, while the temporary name still links it. */
    method IdentifyPublished(ghost before: seq<Moment>, ghost p: Plan) returns (i: Option<Inode>)
      requires Committing(before, p) && replaced && temporary.Some?
      requires directory.disk.entries[temporary.value] == written
      modifies directory
      ensures Committing(before, p) && old(directory.history) <= directory.history
      ensures SamePrivate(old(directory.disk), directory.disk, None)
      ensures i == None ==> !Smooth(directory.history, |before|)
      ensures i ==
              if Seen(directory.history, |old(directory.history)|, Identified(temporary.value)) then Some(written)
              else None
    {
      ghost var was := directory.View();
      var r, found, m := directory.Stat(temporary.value);
      StillUnderway(was, before, p, m);
      PrivateStays(was.0, was.1, directory.quiet, m, None);
      LookShows(m, temporary.value);
      OneMoreSeen(was.2, m, |was.2|, Identified(temporary.value));
      i := if r == Done then Some(found) else None;
    }

    /** Record the published identity, then drop the temporary name. */
    method RecordPublished(ghost before: seq<Moment>, ghost p: Plan) returns (ok: bool)
      requires Committing(before, p) && replaced && !existed && temporary.Some? && published == None
      requires directory.disk.entries[temporary.value] == written
      modifies directory, this
      ensures Committing(before, p) && replaced
      ensures ok ==> published == Some(written) && temporary == None
      ensures published ==
              if Seen(directory.history, |old(directory.history)|, Identified(old(temporary).value)) then Some(written)
              else None
      ensures old(directory.history) <= directory.history
      ensures if ok then Spotless(old(directory.disk), old(temporary), directory.disk)
              else temporary == old(temporary) && SamePrivate(old(directory.disk), directory.disk, None)
      ensures !ok ==> !Smooth(directory.history, |before|)
    {
      ghost var from, name := |directory.history|, temporary.value;
      published := IdentifyPublished(before, p);
      if published == None {
        return false;
      }
      ghost var was := directory.history;
      ok := DropTemporary(before, p);
      StaysSeen(was, directory.history, from, Identified(name));
    }

    /** The destination has its own link; the temporary name is no longer needed. */
    method DropTemporary(ghost before: seq<Moment>, ghost p: Plan) returns (ok: bool)
      requires Committing(before, p) && temporary.Some?
      modifies directory, this`temporary
      ensures Committing(before, p) && old(directory.history) <= directory.history
      ensures if ok then temporary == None else temporary == old(temporary)
      ensures SamePrivate(old(directory.disk), directory.disk, if ok then old(temporary) else None)
      ensures ok ==> old(temporary).value !in directory.disk.entries
      ensures !ok ==> !Smooth(directory.history, |before|)
    {
      var r := UnlinkTemporary(before, p);
      ok := r == Done;
      if ok {
        temporary := None;
      }
    }

    /** Everything after the directory has been opened, up to the last sync. */
    method Publish(content: Bytes, ghost before: seq<Moment>, ghost p: Plan) returns (ok: bool)
      requires Committing(before, p) && Pristine() && p == PlanFor(content)
      modifies directory, this
      ensures Committing(before, p)
      ensures !ok ==> !Smooth(directory.history, |before|)
      ensures old(directory.history) <= directory.history
      ensures Tidy(old(directory.disk), None, directory.disk, temporary, directory.history, |before|)
      ensures ok && (directory.quiet || !existed) ==> Spotless(old(directory.disk), None, directory.disk)
      ensures ok ==> replaced && (!existed ==> published == Some(written)) && temporary == None
    {
      ghost var f;
      ok, f := WriteTemporary(content, before, p);
      ghost var t, was, h := temporary, directory.disk, directory.history;
      TidyStep(old(directory.disk), None, was, t, t, h, |before|);
      if !ok {
        return;
      }
      if existed {
        ok := PublishOver(f, before, p);
      } else {
        ok := PublishNew(f, before, p);
      }
      TidyThen(old(directory.disk), None, was, t, h, directory.disk, temporary, directory.history, |before|);
      if ok && (directory.quiet || !existed) {
        SpotlessThen(old(directory.disk), t, was, directory.disk);
      }
    }

    /** Back up what is there and rename over it. */
    method PublishOver(ghost f: File, ghost before: seq<Moment>, ghost p: Plan) returns (ok: bool)
      requires Committing(before, p) && !replaced && existed && temporary.Some? && backup == None
      requires Prepares(before, p, map[temporary.value := f]) && f.content == p.content
      modifies directory, this
      ensures Committing(before, p)
      ensures !ok ==> !Smooth(directory.history, |before|)
      ensures ok ==> replaced && temporary == None
      ensures old(directory.history) <= directory.history
      ensures Tidy(old(directory.disk), old(temporary), directory.disk, temporary, directory.history, |before|)
      ensures ok && directory.quiet ==> Spotless(old(directory.disk), old(temporary), directory.disk)
    {
      ghost var k;
      ghost var start := directory.disk;
      ok, k := SaveBackup(temporary.value, f, before, p);
      Forget(before, p, temporary.value, f);
      ghost var was := directory.disk;
      TidyStep(was, temporary, was, temporary, None, directory.history, |before|);
      if ok {
        ok := ReplaceDestination(f, k, before, p);
      }
      SameThenTidy(start, was, old(temporary), directory.disk, temporary, directory.history, |before|);
    }

    lemma RecordedTidily(d: Disk, t: Option<Name>, d': Disk, gone: bool, h: seq<Moment>, from: nat)
      requires if gone then Spotless(d, t, d') else SamePrivate(d, d', None)
      ensures Tidy(d, t, d', if gone then None else t, h, from)
    {
      if gone {
        SpotlessIsTidy(d, t, d', None, h, from);
      } else {
        TidyStep(d, t, d', t, None, h, from);
      }
    }

    /** Link at the absent destination and record what was linked. */
    method PublishNew(ghost f: File, ghost before: seq<Moment>, ghost p: Plan) returns (ok: bool)
      requires Committing(before, p) && !replaced && !existed && temporary.Some? && backup == None
      requires Prepares(before, p, map[temporary.value := f]) && f.content == p.content
      modifies directory, this
      ensures Committing(before, p)
      ensures !ok ==> !Smooth(directory.history, |before|)
      ensures ok ==> replaced && published == Some(written) && temporary == None
      ensures old(directory.history) <= directory.history
      ensures Tidy(old(directory.disk), old(temporary), directory.disk, temporary, directory.history, |before|)
      ensures ok ==> Spotless(old(directory.disk), old(temporary), directory.disk)
    {
      ok := LinkDestination(f, before, p);
      ghost var was := directory.disk;
      TidyStep(was, temporary, was, temporary, None, directory.history, |before|);
      if ok {
        ok := RecordPublished(before, p);
        RecordedTidily(was, old(temporary), directory.disk, ok, directory.history, |before|);
      }
      SameThenTidy(old(directory.disk), was, old(temporary), directory.disk, temporary, directory.history, |before|);
    }

    /** The invariant without the temporary file's content. */
    lemma Forget(before: seq<Moment>, p: Plan, n: Name, f: File)
      requires Prepares(before, p, map[n := f])
      ensures Prepares(before, p, map[])
      ensures n.Private() ==> n in directory.disk.entries && directory.disk.entries[n] in directory.ledger.created
    {
      assert n in map[n := f];
    }

    /**
     Publish `content` at the destination.  `valid` says that it parses as a configuration.

     Whatever fails, `replaced` tells whether the destination may have changed; and with nobody
     else at work every moment of the commit survives a crash.
     */
    method Commit(content: Bytes, valid: bool) returns (r: CommitResult)
      requires Valid() && Pristine() && Untouched()
      modifies directory, this
      ensures Valid() && temporary == None && quarantine == None
      ensures |old(directory.history)| <= |directory.history|
      ensures directory.history[..|old(directory.history)|] == old(directory.history)
      ensures r == Committed ==> replaced
      ensures r != Committed ==> r == CommitFailed(replaced)
      ensures !replaced ==> DestAlone(directory.history, |old(directory.history)|)
      ensures replaced ==> Seen(directory.history, |old(directory.history)|, Publishes(content))
      ensures replaced && existed ==>
                backup.Some?
                && BackedUp(directory.disk, directory.ledger, directory.history, |old(directory.history)|, backup.value)
      ensures replaced && (directory.quiet || !existed) ==>
                !DestAlone(directory.history, |old(directory.history)|)
      ensures directory.quiet ==> AllSteady(directory.history, |old(directory.history)|, PlanFor(content))
      ensures directory.quiet && replaced ==> directory.disk.Holds(Dest, content)
      ensures r == Committed && !existed ==> published == Some(written)
      ensures r == Committed && directory.quiet ==>
                && EntriesSynced(directory.disk)
                && Published(directory.disk, PlanFor(content), directory.disk.entries[Dest])
      ensures Tidy(old(directory.disk), None, directory.disk, None,
                   directory.history, |old(directory.history)|)
      ensures r == Committed && (directory.quiet || !existed) ==>
                Spotless(old(directory.disk), None, directory.disk)
      ensures valid && Smooth(directory.history, |old(directory.history)|) ==> r == Committed
      ensures !valid ==> r == CommitFailed(false) && directory.history == old(directory.history)
    {
      if !valid {
        TidyStep(directory.disk, None, directory.disk, None, None, directory.history, |directory.history|);
        return CommitFailed(false);
      }
      ghost var before, p := directory.history, PlanFor(content);
      assert before[..|before|] == before;
      var ok := OpenForCommit(before, p);
      ghost var was := directory.disk;
      TidyStep(was, None, was, None, None, directory.history, |before|);
      SameThenTidy(old(directory.disk), was, None, was, None, directory.history, |before|);
      if !ok {
        return CommitFailed(false);
      }
      ok := PublishDurably(content, before, p);
      SameThenTidy(old(directory.disk), was, None, directory.disk, None, directory.history, |before|);
      r := if ok then Committed else CommitFailed(replaced);
    }

    method OpenForCommit(ghost before: seq<Moment>, ghost p: Plan) returns (ok: bool)
      requires Prepares(before, p, map[])
      modifies directory
      ensures Prepares(before, p, map[])
      ensures SamePrivate(old(directory.disk), directory.disk, None) && old(directory.history) <= directory.history
      ensures !ok ==> !Smooth(directory.history, |before|)
    {
      ghost var was := directory.View();
      var access, m := directory.Attempt(Opening);
      Prepared(was, before, p, map[], m);
      PrivateStays(was.0, was.1, directory.quiet, m, None);
      ok := access == Done;
    }

    lemma SyncedTidily(a: Disk, b: Disk, t: Option<Name>, h: seq<Moment>, c: Disk, longer: seq<Moment>, from: nat)
      requires Tidy(a, None, b, t, h, from) && SamePrivate(b, c, None) && h <= longer
      ensures Tidy(a, None, c, t, longer, from)
      ensures Spotless(a, None, b) ==> Spotless(a, None, c)
    {
      TidyStep(b, t, c, t, None, longer, from);
      TidyThen(a, None, b, t, h, c, t, longer, from);
      forall n <- c.entries | n.Private() ensures n in b.entries {
        assert Lookup(c.entries, n) == Lookup(b.entries, n);
      }
    }

    /** Publish and sync; a failure leaves no temporary name behind that could go. */
    method PublishDurably(content: Bytes, ghost before: seq<Moment>, ghost p: Plan) returns (ok: bool)
      requires Committing(before, p) && Pristine() && p == PlanFor(content)
      modifies directory, this
      ensures Committing(before, p) && temporary == None
      ensures !ok ==> !Smooth(directory.history, |before|)
      ensures Tidy(old(directory.disk), None, directory.disk, None, directory.history, |before|)
      ensures ok && (directory.quiet || !existed) ==> Spotless(old(directory.disk), None, directory.disk)
      ensures ok ==> replaced && (!existed ==> published == Some(written))
      ensures ok && directory.quiet ==> EntriesSynced(directory.disk)
    {
      ok := Publish(content, before, p);
      ghost var start, t, was, h := old(directory.disk), temporary, directory.disk, directory.history;
      if ok {
        ok := SyncPublished(before, p);
        SyncedTidily(start, was, t, h, directory.disk, directory.history, |before|);
      }
      if !ok {
        ghost var t', was', h' := temporary, directory.disk, directory.history;
        CleanupTemporary(before, p);
        TidyThen(start, None, was', t', h', directory.disk, None, directory.history, |before|);
      }
    }

    // -- Restore ---------------------------------------------------------------

    /** The destination is published and rollback is under way. */
    ghost predicate RollingBack(from: nat)
      reads this, directory
    {
      Base() && replaced && !existed && from <= |directory.history|
    }

    /** In a quiet directory the placeholder is not another link of the destination. */
    ghost predicate ApartFromDest(q: Option<Name>)
      reads directory
    {
      q.Some? && Dest in directory.disk.entries ==>
        Lookup(directory.disk.entries, q.value) != Lookup(directory.disk.entries, Dest)
    }

    method ChangeMode(ghost from: nat) returns (r: Outcome)
      requires RollingBack(from) && Placeholder(directory.disk, directory.ledger, quarantine)
      modifies directory
      ensures RollingBack(from) && Placeholder(directory.disk, directory.ledger, quarantine)
      ensures r == Done || r == Fault
      ensures FaultFree(directory.history, from) == (r == Done && old(FaultFree(directory.history, from)))
      ensures directory.ledger == old(directory.ledger)
      ensures SamePrivate(old(directory.disk), directory.disk, None) && old(directory.history) <= directory.history
      ensures directory.quiet ==> directory.disk.entries == old(directory.disk.entries)
    {
      ghost var was := directory.View();
      ghost var m;
      r, m := directory.Attempt(ChangingMode);
      PrivateStays(was.0, was.1, directory.quiet, m, None);
      OneMoreTaken(was.2, m, from, published);
      GuardedStep(was.0, was.1, was.2, directory.quiet, quarantine, m);
    }

    /** A try to create one placeholder; its name is recorded at once. */
    method ReserveName(name: Name, ghost from: nat) returns (r: Outcome)
      requires RollingBack(from) && quarantine == None && name.Quarantine?
      modifies directory, this`quarantine
      ensures RollingBack(from) && Placeholder(directory.disk, directory.ledger, quarantine)
      ensures r == Done ==> quarantine.Some?
      ensures SamePrivate(old(directory.disk), directory.disk, quarantine)
      ensures old(directory.history) <= directory.history
      ensures r == Exists ==> quarantine == None
      ensures r != Done && r != Exists ==> !FaultFree(directory.history, from)
      ensures FaultFree(directory.history, from) ==> old(FaultFree(directory.history, from))
      ensures r in {Done, Exists} && old(FaultFree(directory.history, from)) ==> FaultFree(directory.history, from)
      ensures old(directory.ledger.created) <= directory.ledger.created
      ensures directory.quiet ==> Lookup(directory.disk.entries, Dest) == old(Lookup(directory.disk.entries, Dest))
      ensures directory.quiet ==> ApartFromDest(quarantine)
    {
      r := CreatePlaceholder(name, from);
      if r == Done {
        r := ChangeMode(from);
      }
    }

    method CreatePlaceholder(name: Name, ghost from: nat) returns (r: Outcome)
      requires RollingBack(from) && quarantine == None && name.Quarantine?
      modifies directory, this`quarantine
      ensures RollingBack(from) && Placeholder(directory.disk, directory.ledger, quarantine)
      ensures quarantine == if r == Done then Some(name) else None
      ensures SamePrivate(old(directory.disk), directory.disk, quarantine)
      ensures old(directory.history) <= directory.history
      ensures FaultFree(directory.history, from) == (r in {Done, Exists} && old(FaultFree(directory.history, from)))
      ensures old(directory.ledger.created) <= directory.ledger.created
      ensures directory.quiet ==> Lookup(directory.disk.entries, Dest) == old(Lookup(directory.disk.entries, Dest))
      ensures directory.quiet ==> ApartFromDest(quarantine)
    {
      ghost var was := directory.View();
      var c, i, m := directory.Create(name);
      PrivateStays(was.0, was.1, directory.quiet, m, if c == Done then Some(name) else None);
      OneMoreTaken(was.2, m, from, published);
      r := c;
      if c == Done {
        GuardedCreate(was.0, was.1, was.2, directory.quiet, m);
        quarantine := Some(name);
      } else {
        GuardedStep(was.0, was.1, was.2, directory.quiet, None, m);
      }
    }

    /** Create a placeholder to rename the destination onto. */
    method ReserveQuarantineName(ghost from: nat) returns (r: Option<RestoreError>)
      requires RollingBack(from) && quarantine == None
      modifies directory, this`quarantine
      ensures RollingBack(from) && Placeholder(directory.disk, directory.ledger, quarantine)
      ensures r == None ==> quarantine.Some?
      ensures SamePrivate(old(directory.disk), directory.disk, quarantine)
      ensures old(directory.history) <= directory.history
      ensures r.Some? ==> r.value in {OperationFailed, NoFreeName}
      ensures r == Some(OperationFailed) ==> !FaultFree(directory.history, from)
      ensures old(directory.ledger.created) <= directory.ledger.created
      ensures directory.quiet ==> Lookup(directory.disk.entries, Dest) == old(Lookup(directory.disk.entries, Dest))
      ensures directory.quiet ==> ApartFromDest(quarantine)
      ensures r in {None, Some(NoFreeName)} && old(FaultFree(directory.history, from)) ==>
                FaultFree(directory.history, from)
    {
      var attempt := 0;
      while attempt < ALLOCATION_ATTEMPTS
        invariant RollingBack(from) && quarantine == None && old(directory.history) <= directory.history
        invariant old(FaultFree(directory.history, from)) ==> FaultFree(directory.history, from)
        invariant SamePrivate(old(directory.disk), directory.disk, None)
        invariant old(directory.ledger.created) <= directory.ledger.created
        invariant directory.quiet ==> Lookup(directory.disk.entries, Dest) == old(Lookup(directory.disk.entries, Dest))
      {
        var token: int := *;
        var c := ReserveName(Quarantine(if token < 0 then 0 else token), from);
        if c == Done {
          return None;
        }
        if c != Exists {
          return Some(OperationFailed);
        }
        attempt := attempt + 1;
      }
      r := Some(NoFreeName);
    }

    /** Remove the placeholder; its name is forgotten even when that fails. */
    method CleanupReservedQuarantine(ghost from: nat) returns (ok: bool)
      requires RollingBack(from) && Placeholder(directory.disk, directory.ledger, quarantine)
      modifies directory, this`quarantine
      ensures RollingBack(from) && quarantine == None
      ensures ok && old(quarantine).Some? ==> old(quarantine).value !in directory.disk.entries
      ensures !ok ==> !FaultFree(directory.history, from)
      ensures FaultFree(directory.history, from) ==> old(FaultFree(directory.history, from))
      ensures old(directory.history) <= directory.history
      ensures Tidy(old(directory.disk), old(quarantine), directory.disk, None, directory.history, from)
      ensures old(directory.ledger.created) <= directory.ledger.created
      ensures directory.quiet ==> Lookup(directory.disk.entries, Dest) == old(Lookup(directory.disk.entries, Dest))
      ensures ok && old(FaultFree(directory.history, from)) ==> FaultFree(directory.history, from)
    {
      if quarantine == None {
        TidyStep(directory.disk, None, directory.disk, None, None, directory.history, from);
        return true;
      }
      ok := UnlinkQuarantine(from, directory.disk.entries[quarantine.value]);
      TidyStep(old(directory.disk), quarantine, directory.disk, None, quarantine, directory.history, from);
      quarantine := None;
    }

    /** Unlink the quarantine name, which no other process touches. */
    method UnlinkQuarantine(ghost from: nat, ghost i: Inode) returns (ok: bool)
      requires directory.Valid() && AllSafe(directory.history) && from <= |directory.history|
      requires Guarded(directory.disk, directory.ledger, quarantine) && quarantine.Some?
      requires directory.disk.entries[quarantine.value] == i
      requires i in directory.ledger.created + directory.ledger.returned
      modifies directory
      ensures directory.Valid() && AllSafe(directory.history) && old(directory.history) <= directory.history
      ensures old(directory.ledger.created) == directory.ledger.created
      ensures SamePrivate(old(directory.disk), directory.disk, if ok then quarantine else None)
      ensures !ok ==> Seen(directory.history, from, Leaves(quarantine.value))
      ensures ok ==> Guarded(directory.disk, directory.ledger, None) && directory.ledger.aside == map[]
      ensures ok ==> quarantine.value !in directory.disk.entries
      ensures ok && published == Some(i) ==> Seen(directory.history, from, TakesOff(published))
      ensures !ok ==> Guarded(directory.disk, directory.ledger, quarantine) && !FaultFree(directory.history, from)
      ensures !ok ==> directory.ledger == old(directory.ledger)
      ensures FaultFree(directory.history, from) ==> old(FaultFree(directory.history, from))
      ensures directory.quiet ==> Lookup(directory.disk.entries, Dest) == old(Lookup(directory.disk.entries, Dest))
      ensures ok && old(FaultFree(directory.history, from)) ==> FaultFree(directory.history, from)
    {
      ghost var was := directory.View();
      var r, m := directory.Unlink(quarantine.value);
      GuardedUnlink(was.0, was.1, was.2, directory.quiet, quarantine.value, m);
      UnlinkLeaves(was.0, was.1, was.2, directory.quiet, m, quarantine.value, from);
      OneMoreTaken(was.2, m, from, published);
      ok := r == Done;
    }

    /** Rename whatever is at the destination onto the reserved name. */
    method RenameAside(ghost from: nat) returns (r: Outcome)
      requires RollingBack(from) && quarantine.Some?
      requires Placeholder(directory.disk, directory.ledger, quarantine)
      requires directory.quiet ==> ApartFromDest(quarantine)
      modifies directory
      ensures RollingBack(from)
      ensures old(directory.ledger.created) <= directory.ledger.created
      ensures old(directory.history) <= directory.history
      ensures Tidy(old(directory.disk), quarantine, directory.disk, quarantine, directory.history, from)
      ensures r != Done ==> Placeholder(directory.disk, directory.ledger, quarantine)
      ensures r == Missing ==> Seen(directory.history, from, TakesOff(published))
      ensures r == Fault ==> !FaultFree(directory.history, from)
      ensures r != Fault && FaultFree(directory.history, from) ==> old(FaultFree(directory.history, from))
      ensures r in {Done, Missing, Fault}
      ensures directory.quiet && r == Done ==>
                && quarantine.value in directory.ledger.aside && Dest !in directory.disk.entries
                && old(Lookup(directory.disk.entries, Dest)) == Some(directory.ledger.aside[quarantine.value])
      ensures directory.quiet && r != Done ==> directory.disk.entries == old(directory.disk.entries)
      ensures directory.quiet && r == Missing ==> Dest !in directory.disk.entries
      ensures r != Fault && old(FaultFree(directory.history, from)) ==> FaultFree(directory.history, from)
    {
      ghost var was := directory.View();
      ghost var m;
      r, m := directory.Rename(Dest, quarantine.value);
      OneMoreTaken(was.2, m, from, published);
      PrivateStays(was.0, was.1, directory.quiet, m, quarantine);
      TidyStep(was.0, quarantine, directory.disk, quarantine, quarantine, directory.history, from);
      GuardedAside(was.0, was.1, was.2, directory.quiet, quarantine.value, m, published);
    }

    /** Reserve a name, or leave none behind. */
    method ReserveOrClean(ghost from: nat) returns (r: Option<RestoreError>)
      requires RollingBack(from) && quarantine == None
      modifies directory, this`quarantine
      ensures RollingBack(from) && Placeholder(directory.disk, directory.ledger, quarantine)
      ensures (r == None) == quarantine.Some?
      ensures r.Some? ==> r.value in {OperationFailed, NoFreeName}
      ensures r == Some(OperationFailed) ==> !FaultFree(directory.history, from)
      ensures old(directory.ledger.created) <= directory.ledger.created
      ensures old(directory.history) <= directory.history
      ensures Tidy(old(directory.disk), None, directory.disk, quarantine, directory.history, from)
      ensures directory.quiet ==> Lookup(directory.disk.entries, Dest) == old(Lookup(directory.disk.entries, Dest))
      ensures directory.quiet ==> ApartFromDest(quarantine)
      ensures r in {None, Some(NoFreeName)} && old(FaultFree(directory.history, from)) ==>
                FaultFree(directory.history, from)
    {
      r := ReserveQuarantineName(from);
      ghost var was, q, h := directory.disk, quarantine, directory.history;
      TidyStep(old(directory.disk), None, was, q, q, h, from);
      if r.Some? {
        var cleaned := CleanupReservedQuarantine(from);
        TidyThen(old(directory.disk), None, was, q, h, directory.disk, None, directory.history, from);
        r := if cleaned then r else Some(OperationFailed);
      }
    }

    /** Move the destination to a reserved name; None with no quarantine: nothing was there. */
    method MoveAside(ghost from: nat) returns (r: Option<RestoreError>)
      requires RollingBack(from) && Valid() && quarantine == None
      modifies directory, this`quarantine
      ensures RollingBack(from) && (directory.quiet ==> QuietOk())
      ensures r == None && quarantine == None ==>
                && Seen(directory.history, from, TakesOff(published))
                && (directory.quiet ==> Dest !in directory.disk.entries)
      ensures old(directory.history) <= directory.history
      ensures Tidy(old(directory.disk), None, directory.disk, quarantine, directory.history, from)
      ensures r.Some? ==> r.value in {OperationFailed, NoFreeName} && quarantine == None
      ensures r == Some(OperationFailed) ==> !FaultFree(directory.history, from)
      ensures r == None && old(FaultFree(directory.history, from)) ==> FaultFree(directory.history, from)
    {
      r := ReserveOrClean(from);
      if r.Some? {
        return;
      }
      ghost var d, q, h := directory.disk, quarantine, directory.history;
      var moved := RenameAside(from);
      TidyThen(old(directory.disk), None, d, q, h, directory.disk, q, directory.history, from);
      if moved == Done {
        return None;
      }
      ghost var aside, was := directory.disk, directory.history;
      r := GiveUpMove(from, moved);
      TidyThen(old(directory.disk), None, aside, q, was, directory.disk, None, directory.history, from);
    }

    /** The destination was not moved; the placeholder is not needed. */
    method GiveUpMove(ghost from: nat, moved: Outcome) returns (r: Option<RestoreError>)
      requires RollingBack(from) && Placeholder(directory.disk, directory.ledger, quarantine)
      requires if moved == Missing then Seen(directory.history, from, TakesOff(published))
               else !FaultFree(directory.history, from)
      modifies directory, this`quarantine
      ensures RollingBack(from) && quarantine == None && old(directory.history) <= directory.history
      ensures old(directory.ledger.created) <= directory.ledger.created
      ensures directory.quiet ==> Lookup(directory.disk.entries, Dest) == old(Lookup(directory.disk.entries, Dest))
      ensures Tidy(old(directory.disk), old(quarantine), directory.disk, None, directory.history, from)
      ensures r == None ==> moved == Missing && Seen(directory.history, from, TakesOff(published))
      ensures r in {None, Some(OperationFailed)} && (r.Some? ==> !FaultFree(directory.history, from))
      ensures r == None && old(FaultFree(directory.history, from)) ==> FaultFree(directory.history, from)
    {
      ghost var was := directory.history;
      var cleaned := CleanupReservedQuarantine(from);
      if moved == Missing {
        StaysSeen(was, directory.history, from, TakesOff(published));
      }
      r := if moved == Missing && cleaned then None else Some(OperationFailed);
    }

    /** Unlink the published file from its quarantine name. */
    method DropQuarantine(ghost from: nat, ghost i: Inode) returns (ok: bool)
      requires RollingBack(from) && quarantine.Some? && directory.disk.entries[quarantine.value] == i
      requires i in directory.ledger.created + directory.ledger.returned
      modifies directory, this`quarantine
      ensures RollingBack(from) && old(directory.history) <= directory.history
      ensures Tidy(old(directory.disk), old(quarantine), directory.disk, quarantine, directory.history, from)
      ensures if ok then quarantine == None else quarantine == old(quarantine)
      ensures ok && published == Some(i) ==> Seen(directory.history, from, TakesOff(published))
      ensures ok ==> directory.ledger.aside == map[]
      ensures !ok ==> !FaultFree(directory.history, from) && directory.ledger == old(directory.ledger)
      ensures directory.quiet ==> Lookup(directory.disk.entries, Dest) == old(Lookup(directory.disk.entries, Dest))
      ensures ok && old(FaultFree(directory.history, from)) ==> FaultFree(directory.history, from)
    {
      ok := UnlinkQuarantine(from, i);
      TidyStep(old(directory.disk), quarantine, directory.disk, if ok then None else quarantine,
               if ok then quarantine else None, directory.history, from);
      if ok {
        quarantine := None;
      }
    }

    /** Link another process's file back where it was. */
    method LinkBack(ghost from: nat) returns (r: Outcome)
      requires RollingBack(from) && quarantine.Some?
      requires published != Some(directory.disk.entries[quarantine.value])
      modifies directory
      ensures RollingBack(from) && (r != Done && r != Exists ==> !FaultFree(directory.history, from))
      ensures SamePrivate(old(directory.disk), directory.disk, None) && old(directory.history) <= directory.history
      ensures r == Done ==> Seen(directory.history, from, ReturnsForeign(published))
      ensures r == Done ==>
                directory.disk.entries[quarantine.value] in directory.ledger.created + directory.ledger.returned
    {
      ghost var was := directory.View();
      ghost var m;
      r, m := directory.Link(quarantine.value, Dest);
      PrivateStays(was.0, was.1, directory.quiet, m, None);
      OneMoreTaken(was.2, m, from, published);
      if r == Done {
        GuardedReturn(was.0, was.1, was.2, directory.quiet, quarantine.value, m);
        assert Shows(m, ReturnsForeign(published));
        OneMoreSeen(was.2, m, from, ReturnsForeign(published));
      } else {
        GuardedStep(was.0, was.1, was.2, directory.quiet, quarantine, m);
      }
    }

    /** Link another process's file back where it was, then drop the quarantine name. */
    method ReturnForeign(ghost from: nat) returns (r: RestoreError)
      requires RollingBack(from) && quarantine.Some?
      requires published != Some(directory.disk.entries[quarantine.value])
      modifies directory, this`quarantine
      ensures RollingBack(from) && r in {Recreated, OperationFailed, ConcurrentFileRestored}
      ensures old(directory.history) <= directory.history
      ensures Tidy(old(directory.disk), old(quarantine), directory.disk, quarantine, directory.history, from)
      ensures r == Recreated ==> quarantine == old(quarantine)
      ensures r == ConcurrentFileRestored ==>
                quarantine == None && Seen(directory.history, from, ReturnsForeign(published))
      ensures r == OperationFailed ==> !FaultFree(directory.history, from)
    {
      ghost var q := quarantine;
      var linked := LinkBack(from);
      ghost var d := directory.disk;
      TidyStep(old(directory.disk), q, d, q, None, directory.history, from);
      if linked != Done {
        return if linked == Exists then Recreated else OperationFailed;
      }
      ghost var was := directory.history;
      var dropped := DropQuarantine(from, directory.disk.entries[quarantine.value]);
      TidyThen(old(directory.disk), q, d, q, was, directory.disk, quarantine, directory.history, from);
      ghost var e, h := directory.disk, directory.history;
      if !dropped {
        return OperationFailed;
      }
      var synced := SyncQuarantine(from);
      TidyStep(e, quarantine, directory.disk, quarantine, None, directory.history, from);
      TidyThen(old(directory.disk), q, e, quarantine, h, directory.disk, quarantine, directory.history, from);
      StaysSeen(was, directory.history, from, ReturnsForeign(published));
      r := if synced then ConcurrentFileRestored else OperationFailed;
    }

    /** Sync, then find out whose file is under the quarantine name. */
    method IdentifyQuarantined(ghost from: nat) returns (r: Option<RestoreError>, i: Inode)
      requires RollingBack(from) && quarantine.Some?
      modifies directory
      ensures RollingBack(from)
      ensures directory.ledger == old(directory.ledger)
      ensures SamePrivate(old(directory.disk), directory.disk, None) && old(directory.history) <= directory.history
      ensures r != Some(OperationFailed) ==> Seen(directory.history, |old(directory.history)|, Synced)
      ensures r == None ==> published.Some? && i == directory.disk.entries[quarantine.value]
      ensures r.Some? ==> r.value in {OperationFailed, NoIdentity}
      ensures r == Some(NoIdentity) ==> published == None
      ensures r == Some(OperationFailed) ==> !FaultFree(directory.history, from)
      ensures directory.quiet ==> directory.disk.entries == old(directory.disk.entries)
      ensures r == None && old(FaultFree(directory.history, from)) ==> FaultFree(directory.history, from)
    {
      i := 0;
      ghost var start := |directory.history|;
      var synced := SyncQuarantine(from);
      if !synced {
        return Some(OperationFailed), 0;
      }
      if published == None {
        return Some(NoIdentity), 0;
      }
      ghost var was := directory.View();
      var c;
      ghost var m;
      c, i, m := directory.Stat(quarantine.value);
      PrivateStays(was.0, was.1, directory.quiet, m, None);
      OneMoreTaken(was.2, m, from, published);
      OneMoreSeen(was.2, m, start, Synced);
      GuardedStep(was.0, was.1, was.2, directory.quiet, quarantine, m);
      r := if c == Done then None else Some(OperationFailed);
    }

    method SyncQuarantine(ghost from: nat) returns (ok: bool)
      requires RollingBack(from)
      modifies directory
      ensures RollingBack(from) && (!ok ==> !FaultFree(directory.history, from))
      ensures SamePrivate(old(directory.disk), directory.disk, None) && old(directory.history) <= directory.history
      ensures directory.ledger == old(directory.ledger)
      ensures ok ==> Seen(directory.history, |old(directory.history)|, Synced)
      ensures directory.quiet ==> directory.disk.entries == old(directory.disk.entries)
      ensures ok && old(FaultFree(directory.history, from)) ==> FaultFree(directory.history, from)
    {
      ghost var was := directory.View();
      var r, m := directory.SyncDirectory();
      PrivateStays(was.0, was.1, directory.quiet, m, None);
      OneMoreTaken(was.2, m, from, published);
      OneMoreSeen(was.2, m, |was.2|, Synced);
      GuardedStep(was.0, was.1, was.2, directory.quiet, quarantine, m);
      ok := r == Done;
    }

    /** Take our file off the destination, and only ours. */
    method RemovePublishedDestination(ghost from: nat) returns (r: Option<RestoreError>)
      requires RollingBack(from) && (directory.quiet ==> QuietOk())
      modifies directory, this`quarantine
      ensures RollingBack(from) && (directory.quiet ==> QuietOk())
      ensures r == None ==> quarantine == None && Seen(directory.history, from, TakesOff(published))
      ensures r == None && directory.quiet ==> Dest !in directory.disk.entries && published.Some?
      ensures r == Some(ConcurrentFileRestored) ==> Seen(directory.history, from, ReturnsForeign(published))
      ensures old(directory.history) <= directory.history
      ensures Tidy(old(directory.disk), old(quarantine), directory.disk, quarantine, directory.history, from)
      ensures r == Some(NoIdentity) ==> quarantine.Some?
      ensures r == Some(OperationFailed) ==> !FaultFree(directory.history, from)
      ensures directory.quiet && published.Some? && r.Some? ==> r.value in {OperationFailed, NoFreeName}
      ensures r == None && old(FaultFree(directory.history, from)) ==> FaultFree(directory.history, from)
    {
      ghost var start, mine := directory.disk, quarantine;
      TidyStep(start, mine, start, mine, None, directory.history, from);
      if quarantine == None {
        r := MoveAside(from);
        if r.Some? || quarantine == None {
          return;
        }
      }
      r := SettleQuarantined(from, start, mine);
    }

    /** What is under the quarantine name goes for good if it is the published file, and back if it is not. */
    method SettleQuarantined(ghost from: nat, ghost start: Disk, ghost mine: Option<Name>)
        returns (r: Option<RestoreError>)
      requires RollingBack(from) && (directory.quiet ==> QuietOk()) && quarantine.Some?
      requires Tidy(start, mine, directory.disk, quarantine, directory.history, from)
      modifies directory, this`quarantine
      ensures RollingBack(from) && (directory.quiet ==> QuietOk())
      ensures r == None ==> quarantine == None && Seen(directory.history, from, TakesOff(published))
      ensures r == None && directory.quiet ==> Dest !in directory.disk.entries && published.Some?
      ensures r == Some(ConcurrentFileRestored) ==> Seen(directory.history, from, ReturnsForeign(published))
      ensures r == Some(NoIdentity) ==> quarantine.Some?
      ensures r == Some(OperationFailed) ==> !FaultFree(directory.history, from)
      ensures directory.quiet && published.Some? && r.Some? ==> r.value == OperationFailed
      ensures old(directory.history) <= directory.history
      ensures Tidy(start, mine, directory.disk, quarantine, directory.history, from)
      ensures r == None && old(FaultFree(directory.history, from)) ==> FaultFree(directory.history, from)
    {
      ghost var d, q, h := directory.disk, quarantine, directory.history;
      var i;
      r, i := IdentifyQuarantined(from);
      ghost var e, g := directory.disk, directory.history;
      TidyStep(d, q, e, q, None, g, from);
      TidyThen(start, mine, d, q, h, e, q, g, from);
      if r.Some? {
        return;
      }
      if i == published.value {
        var dropped := DropQuarantine(from, i);
        TidyThen(start, mine, e, q, g, directory.disk, quarantine, directory.history, from);
        return if dropped then None else Some(OperationFailed);
      }
      var error := ReturnForeign(from);
      TidyThen(start, mine, e, q, g, directory.disk, quarantine, directory.history, from);
      r := Some(error);
    }

    /** Moving the backup over the destination loads it again; a failure changes nothing. */
    lemma BackupMoved(was: (Disk, Ledger, seq<Moment>), m: Moment)
      requires backup.Some? && backup.value.Backup? && replaced && existed
      requires Guarded(was.0, was.1, None) && (directory.quiet ==> QuietAt(was.0, was.1))
      requires m.ledger == was.1 && Meddled(was.0, m.before, directory.quiet, was.1.created) && Ran(m)
      requires
        || m.op == Failed
        || (m.op == Refused && backup.value !in m.before.entries)
        || (backup.value in m.before.entries &&
            (if Lookup(m.before.entries, Dest) == Some(m.before.entries[backup.value]) then m.op == Nothing
             else m.op.Moved? && m.op.src == backup.value && m.op.dst == Dest))
      ensures Guarded(m.after, Note(m.ledger, m.op), None)
      ensures Succeeded(m.op) && directory.quiet ==>
                AsLoaded(m.after) && LoadedIsForeign(m.after, Note(m.ledger, m.op))
      ensures !Succeeded(m.op) && directory.quiet ==>
                m.op == Failed && QuietAt(m.after, Note(m.ledger, m.op))
    {
    }

    /** The rename itself. */
    method MoveBackup(ghost from: nat) returns (ok: bool)
      requires Valid() && replaced && existed && backup.Some? && from <= |directory.history|
      modifies directory
      ensures directory.Valid() && from <= |directory.history|
      ensures published.Some? ==> published.value in directory.ledger.created
      ensures Guarded(directory.disk, directory.ledger, None)
      ensures SamePrivate(old(directory.disk), directory.disk, None) && old(directory.history) <= directory.history
      ensures ok ==> Seen(directory.history, from, PutsBack(backup))
      ensures ok && directory.quiet ==> AsLoaded(directory.disk) && LoadedIsForeign(directory.disk, directory.ledger)
      ensures !ok && directory.quiet ==> QuietOk() && !FaultFree(directory.history, from)
      ensures ok && old(FaultFree(directory.history, from)) ==> FaultFree(directory.history, from)
    {
      ghost var was := directory.View();
      var c, m := directory.Rename(backup.value, Dest);
      PrivateStays(was.0, was.1, directory.quiet, m, None);
      OneMoreTaken(was.2, m, from, published);
      OneMoreSeen(was.2, m, from, PutsBack(backup));
      BackupMoved(was, m);
      ok := c == Done;
    }

    /** Rename the backup over the destination; the backup is then used up. */
    method RenameBackup(ghost from: nat) returns (r: Option<RestoreError>)
      requires Valid() && replaced && existed && from <= |directory.history|
      modifies directory, this`backup
      ensures Valid() && from <= |directory.history|
      ensures SamePrivate(old(directory.disk), directory.disk, None) && old(directory.history) <= directory.history
      ensures old(backup) == None ==> r == Some(NoBackup)
      ensures r == None ==> backup == None && Seen(directory.history, from, PutsBack(old(backup)))
      ensures r.Some? ==> r.value in {NoBackup, OperationFailed} && backup == old(backup)
      ensures r == Some(NoBackup) ==> old(backup) == None
      ensures directory.quiet && r == Some(OperationFailed) ==> !FaultFree(directory.history, from)
      ensures r == None && old(FaultFree(directory.history, from)) ==> FaultFree(directory.history, from)
    {
      if backup == None {
        return Some(NoBackup);
      }
      var moved := MoveBackup(from);
      if !moved {
        return Some(OperationFailed);
      }
      backup := None;
      r := None;
    }

    /** The last sync of a rollback. */
    method SyncRestored(ghost from: nat) returns (ok: bool)
      requires Valid() && from <= |directory.history|
      modifies directory
      ensures Valid() && directory.ledger == old(directory.ledger)
      ensures ok ==> Seen(directory.history, from, Synced)
      ensures ok && directory.quiet ==> EntriesSynced(directory.disk)
      ensures directory.quiet ==> directory.disk.entries == old(directory.disk.entries)
                                  && directory.disk.data == old(directory.disk.data)
      ensures !ok ==> !FaultFree(directory.history, from)
      ensures SamePrivate(old(directory.disk), directory.disk, None) && old(directory.history) <= directory.history
      ensures ok && old(FaultFree(directory.history, from)) ==> FaultFree(directory.history, from)
    {
      ghost var was := directory.View();
      var c, m := directory.SyncDirectory();
      PrivateStays(was.0, was.1, directory.quiet, m, None);
      OneMoreTaken(was.2, m, from, published);
      OneMoreSeen(was.2, m, from, Synced);
      GuardedStays(was.0, was.1, directory.quiet, quarantine, m);
      ok := c == Done;
    }

    /** The call that undoes the publication. */
    function Undoing(backup: Option<Name>, published: Option<Inode>): Fact {
      if existed then PutsBack(backup) else TakesOff(published)
    }

    /** The change at the destination that undoes the commit. */
    method UndoPublication(ghost from: nat) returns (r: Option<RestoreError>)
      requires Valid() && replaced && from <= |directory.history|
      modifies directory, this`backup, this`quarantine
      ensures Valid() && from <= |directory.history|
      ensures r == None ==> if existed then backup == None else quarantine == None
      ensures r == None && directory.quiet ==> AsLoaded(directory.disk)
      ensures r == None ==>
                Seen(directory.history, from, Undoing(old(backup), published))
      ensures r == Some(ConcurrentFileRestored) ==> Seen(directory.history, from, ReturnsForeign(published))
      ensures directory.quiet && FaultFree(directory.history, from) ==>
                if existed then r == None <==> old(backup).Some?
                else published.Some? ==> r in {None, Some(NoFreeName)}
      ensures existed && old(backup) == None ==> r == Some(NoBackup)
      ensures directory.quiet && !existed && published == None ==> r.Some?
      ensures old(directory.history) <= directory.history
      ensures Tidy(old(directory.disk), old(quarantine), directory.disk, quarantine, directory.history, from)
      ensures r == Some(NoIdentity) && directory.quiet ==> quarantine.Some?
      ensures r == None && old(FaultFree(directory.history, from)) ==> FaultFree(directory.history, from)
    {
      if existed {
        r := RenameBackup(from);
        TidyStep(old(directory.disk), quarantine, directory.disk, quarantine, None, directory.history, from);
      } else {
        r := RemovePublishedDestination(from);
      }
    }

    method OpenDirectory(ghost from: nat) returns (ok: bool)
      requires Valid() && from == |directory.history|
      modifies directory
      ensures Valid() && from <= |directory.history|
      ensures SamePrivate(old(directory.disk), directory.disk, None) && old(directory.history) <= directory.history
      ensures FaultFree(directory.history, from) == ok
    {
      ghost var was := directory.View();
      var r, m := directory.Attempt(Opening);
      PrivateStays(was.0, was.1, directory.quiet, m, None);
      OneMoreTaken(was.2, m, from, published);
      ok := r == Done;
    }

    /**
     Undo the commit.  Retrying after a failure is allowed.

     With nobody else at work a normal return means the loaded bytes, or absence, durably.  From any
     earlier failure a fault-free call succeeds: for an absent destination when its identity was
     recorded, for an existing one exactly when the backup has not been used up.
     */
    method Restore() returns (r: RestoreResult)
      requires Valid()
      modifies directory, this
      ensures Valid()
      ensures !old(replaced) ==> r == Restored && directory.history == old(directory.history)
      ensures r == Restored ==> !replaced && (old(replaced) ==> published == None)
      ensures r != Restored ==> replaced && published == old(published)
      ensures r == Restored && directory.quiet ==> AsLoaded(directory.disk)
      ensures r == Restored && directory.quiet && old(replaced) ==> EntriesSynced(directory.disk)
      ensures r == Restored && old(replaced) ==>
                Seen(directory.history, |old(directory.history)|, Undoing(old(backup), old(published)))
      ensures r == Restored && old(replaced) ==> Seen(directory.history, |old(directory.history)|, Synced)
      ensures r == Restored && old(replaced) && !existed ==> quarantine == None
      ensures r == RestoreFailed(ConcurrentFileRestored) ==>
                Seen(directory.history, |old(directory.history)|, ReturnsForeign(old(published)))
      ensures directory.quiet && old(replaced) && FaultFree(directory.history, |old(directory.history)|) ==>
                if existed then (r == Restored <==> old(backup).Some?)
                else old(published).Some? ==> r in {Restored, RestoreFailed(NoFreeName)}
      ensures existed && old(replaced) && old(backup) == None ==>
                r in {RestoreFailed(NoBackup), RestoreFailed(OperationFailed)}
      ensures directory.quiet && old(replaced) && !existed && old(published) == None ==> r != Restored
      ensures Tidy(old(directory.disk), old(quarantine), directory.disk, quarantine,
                   directory.history, |old(directory.history)|)
      ensures directory.quiet && r == RestoreFailed(NoIdentity) ==>
                Dest !in directory.disk.entries && quarantine.Some? && quarantine.value in directory.disk.entries
      ensures r == Restored && old(replaced) ==> FaultFree(directory.history, |old(directory.history)|)
    {
      if !replaced {
        TidyStep(directory.disk, quarantine, directory.disk, quarantine, None, directory.history, |directory.history|);
        return Restored;
      }
      ghost var from := |directory.history|;
      var ok := OpenDirectory(from);
      ghost var start, mine, begun := old(directory.disk), quarantine, directory.disk;
      TidyStep(start, mine, begun, mine, None, directory.history, from);
      if !ok {
        return RestoreFailed(OperationFailed);
      }
      var failure := UndoDurably(from);
      SameThenTidy(start, begun, mine, directory.disk, quarantine, directory.history, from);
      if failure.Some? {
        return RestoreFailed(failure.value);
      }
      replaced := false;
      published := None;
      r := Restored;
    }

    /** Undo the publication and make that durable. */
    method UndoDurably(ghost from: nat) returns (r: Option<RestoreError>)
      requires Valid() && replaced && from <= |directory.history|
      modifies directory, this`backup, this`quarantine
      ensures Valid() && from <= |directory.history| && old(directory.history) <= directory.history
      ensures Tidy(old(directory.disk), old(quarantine), directory.disk, quarantine, directory.history, from)
      ensures r == None ==> if existed then backup == None else quarantine == None
      ensures r == None ==>
                && Seen(directory.history, from, Undoing(old(backup), published))
                && Seen(directory.history, from, Synced)
                && (directory.quiet ==> AsLoaded(directory.disk) && EntriesSynced(directory.disk))
      ensures r == Some(ConcurrentFileRestored) ==> Seen(directory.history, from, ReturnsForeign(published))
      ensures directory.quiet && FaultFree(directory.history, from) ==>
                if existed then r == None <==> old(backup).Some?
                else published.Some? ==> r in {None, Some(NoFreeName)}
      ensures existed && old(backup) == None ==> r == Some(NoBackup)
      ensures directory.quiet && !existed && published == None ==> r.Some?
      ensures r == Some(NoIdentity) && directory.quiet ==> quarantine.Some?
      ensures r == None && old(FaultFree(directory.history, from)) ==> FaultFree(directory.history, from)
    {
      ghost var start, mine := directory.disk, quarantine;
      r := UndoPublication(from);
      if r == None {
        ghost var d, h := directory.disk, directory.history;
        r := FinishRestore(from, old(backup));
        TidyStep(d, quarantine, directory.disk, quarantine, None, directory.history, from);
        TidyThen(start, mine, d, quarantine, h, directory.disk, quarantine, directory.history, from);
      }
    }

    /** The publication has been undone: make that durable. */
    method FinishRestore(ghost from: nat, ghost used: Option<Name>) returns (r: Option<RestoreError>)
      requires Valid() && from <= |directory.history| && (directory.quiet ==> AsLoaded(directory.disk))
      requires Seen(directory.history, from, Undoing(used, published))
      modifies directory
      ensures Valid() && r in {None, Some(OperationFailed)}
      ensures SamePrivate(old(directory.disk), directory.disk, None) && old(directory.history) <= directory.history
      ensures directory.quiet ==> AsLoaded(directory.disk)
      ensures Seen(directory.history, from, Undoing(used, published))
      ensures r == None ==>
                Seen(directory.history, from, Synced) && (directory.quiet ==> EntriesSynced(directory.disk))
      ensures r.Some? ==> !FaultFree(directory.history, from)
      ensures r == None && old(FaultFree(directory.history, from)) ==> FaultFree(directory.history, from)
    {
      ghost var was := directory.history;
      var ok := SyncRestored(from);
      StaysSeen(was, directory.history, from, Undoing(used, published));
      r := if ok then None else Some(OperationFailed);
    }

    /** The artifact to move back, or the publication to remove, and a sync. */
    function RecoveryCommands(): seq<RecoveryCommand>
      reads this
    {
      if quarantine.Some? then [MoveBack(quarantine.value), SyncParent]
      else if backup.Some? then [MoveBack(backup.value), SyncParent]
      else if replaced && !existed then [RemoveDestination, SyncParent]
      else []
    }

    /**
     With nobody else at work, the commands shown while a publication is not taken back restore the loaded
     destination durably; only what was quarantined without a known identity comes back as it was published.
     */
    lemma RecoveryCommandsRestore()
      requires Valid() && directory.quiet && replaced
      ensures var after := AfterCommands(directory.disk, RecoveryCommands());
              && (quarantine == None ==> AsLoaded(after))
              && (RecoveryCommands() != [] ==> EntriesSynced(after))
              && (quarantine.Some? ==>
                    quarantine.value !in after.entries
                    && Lookup(after.entries, Dest) == Some(directory.ledger.aside[quarantine.value]))
    {
      if quarantine.Some? {
        MovesBack(directory.disk, quarantine.value);
      } else if backup.Some? {
        MovesBack(directory.disk, backup.value);
      } else if !existed {
        Removes(directory.disk);
      }
    }
  }
}
