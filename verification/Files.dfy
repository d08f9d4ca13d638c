/**
 One directory shared with another process, as the configuration transaction sees it.

 Every call of the transaction is one `Moment`: other processes act first, then the call either
 has its whole effect or none.  `ledger` and `history` are the ghost record the claims range over.
 */
module Files {
  import opened Common

  type Inode = nat

  /** Temporary and quarantine names carry a random token; backup names are predictable. */
  datatype Name =
    | Dest
    | Temp(token: nat)
    | Backup(stamp: nat, suffix: nat)
    | Quarantine(token: nat)
    | Other(id: nat)
  {
    predicate Private() {
      Temp? || Quarantine?
    }
  }

  /** A directory entry that was written but perhaps not yet made durable. */
  datatype Change = Change(name: Name, inode: Option<Inode>)

  /**
   `data` keeps every inode ever used, so an identity is never reused.  `synced` is the directory
   at its last fsync, `pending` the entry changes since, `solid` the bytes files were synced with.
   */
  datatype Disk = Disk(
    entries: map<Name, Inode>,
    data: map<Inode, Bytes>,
    synced: map<Name, Inode>,
    pending: seq<Change>,
    solid: map<Inode, Bytes>)
  {
    predicate Sound() {
      forall n <- entries :: entries[n] in data
    }

    predicate Holds(n: Name, content: Bytes) {
      n in entries && entries[n] in data && data[entries[n]] == content
    }
  }

  /** What the transaction asked for. */
  datatype Call =
    | Opening
    | ChangingMode
    | Creating(name: Name)
    | Writing(inode: Inode)
    | SyncingFile(inode: Inode)
    | SyncingDirectory
    | Linking(src: Name, dst: Name)
    | Unlinking(name: Name)
    | Renaming(src: Name, dst: Name)
    | Stating(name: Name)
    | Reading(name: Name)

  /** What a call did; `Failed` is an error, `Refused` an existing or a missing name. */
  datatype Op =
    | Nothing
    | Failed
    | Refused
    | Created(name: Name, inode: Inode)
    | Wrote(inode: Inode, chunk: Bytes)
    | SyncedFile(inode: Inode)
    | SyncedDirectory
    | Linked(src: Name, dst: Name, inode: Inode)
    | Unlinked(name: Name, inode: Inode)
    | Moved(src: Name, dst: Name, inode: Inode, displaced: Option<Inode>)

  predicate Possible(d: Disk, op: Op) {
    match op
    case Created(n, i) => n !in d.entries && i !in d.data
    case Wrote(i, _) => i in d.data
    case SyncedFile(i) => i in d.data
    case Linked(src, dst, i) => src in d.entries && d.entries[src] == i && dst !in d.entries
    case Unlinked(n, i) => n in d.entries && d.entries[n] == i
    case Moved(src, dst, i, displaced) =>
      && src in d.entries && d.entries[src] == i
      && displaced == (if dst in d.entries then Some(d.entries[dst]) else None)
      && displaced != Some(i)       // renaming onto another link of the same file does nothing
    case _ => true
  }

  function Effect(d: Disk, op: Op): Disk
    requires Possible(d, op)
  {
    match op
    case Created(n, i) =>
      d.(entries := d.entries[n := i], data := d.data[i := []], pending := d.pending + [Change(n, Some(i))])
    case Wrote(i, chunk) => d.(data := d.data[i := d.data[i] + chunk])
    case SyncedFile(i) => d.(solid := d.solid[i := d.data[i]])
    case SyncedDirectory => d.(synced := d.entries, pending := [])
    case Linked(src, dst, i) => d.(entries := d.entries[dst := i], pending := d.pending + [Change(dst, Some(i))])
    case Unlinked(n, i) => d.(entries := d.entries - {n}, pending := d.pending + [Change(n, None)])
    case Moved(src, dst, i, displaced) =>
      d.(entries := (d.entries - {src})[dst := i],
         pending := d.pending + [Change(src, None), Change(dst, Some(i))])
    case _ => d
  }

  /**
   The transaction's record: inodes it created, inodes it has linked at the destination since it
   last moved them away, and what it has moved away and not yet linked back or removed.
   */
  datatype Ledger = Ledger(created: set<Inode>, returned: set<Inode>, aside: map<Name, Inode>)

  function Note(l: Ledger, op: Op): Ledger {
    match op
    case Created(_, i) => l.(created := l.created + {i})
    case Linked(src, Dest, i) => l.(returned := l.returned + {i}, aside := l.aside - {src})
    case Unlinked(n, _) => l.(aside := l.aside - {n})
    case Moved(Dest, dst, i, _) => l.(returned := l.returned - {i}, aside := l.aside[dst := i])
    case _ => l
  }

  lemma EffectStaysSound(l: Ledger, d: Disk, op: Op)
    requires d.Sound() && Possible(d, op) && l.created <= d.data.Keys
    ensures Effect(d, op).Sound() && Note(l, op).created <= Effect(d, op).data.Keys
  {
  }

  /** One call of the transaction, `before` being the disk as other processes left it. */
  datatype Moment = Moment(ledger: Ledger, before: Disk, call: Call, op: Op, after: Disk)

  /**
   What another process may do between two calls: anything to names that are not private and to
   files the transaction did not create.
   */
  ghost predicate Meddled(d: Disk, d': Disk, quiet: bool, own: set<Inode>) {
    && (quiet ==> d' == d)
    && d'.Sound()
    && d.data.Keys <= d'.data.Keys
    && (forall n: Name | n.Private() ::
          (n in d.entries <==> n in d'.entries) && (n in d.entries ==> d'.entries[n] == d.entries[n]))
    && (forall i <- own :: i in d.data ==> d'.data[i] == d.data[i])
  }

  predicate ChangesDest(op: Op) {
    match op
    case Created(Dest, _) => true
    case Linked(_, Dest, _) => true
    case Unlinked(Dest, _) => true
    case Moved(src, dst, _, _) => src == Dest || dst == Dest
    case _ => false
  }

  /**
   Nobody else's file is lost: a name is taken only from an inode the transaction created or has
   linked back, a rename displaces only its own file, and what is aside is where the ledger says.
   */
  predicate Safe(m: Moment) {
    && (m.op.Unlinked? ==> m.op.inode in m.ledger.created + m.ledger.returned)
    && (m.op.Moved? ==> m.op.displaced.Some? ==> m.op.displaced.value in m.ledger.created)
    && var after := Note(m.ledger, m.op);
       forall q <- after.aside :: q.Quarantine? && q in m.after.entries && m.after.entries[q] == after.aside[q]
  }

  ghost predicate FollowsOn(earlier: Moment, later: Moment, quiet: bool) {
    && later.ledger == Note(earlier.ledger, earlier.op)
    && Meddled(earlier.after, later.before, quiet, later.ledger.created)
  }

  ghost predicate Ran(m: Moment) {
    && m.before.Sound() && m.ledger.created <= m.before.data.Keys
    && Possible(m.before, m.op) && m.after == Effect(m.before, m.op)
  }

  /** Each moment ran from where the one before it and the other processes left the disk. */
  ghost predicate Trace(h: seq<Moment>, quiet: bool) {
    h == [] ||
    (var k := |h| - 1;
     Trace(h[..k], quiet) && Ran(h[k]) && (k > 0 ==> FollowsOn(h[k - 1], h[k], quiet)))
  }

  predicate AllSafe(h: seq<Moment>) {
    h == [] || (AllSafe(h[..|h| - 1]) && Safe(h[|h| - 1]))
  }

  predicate LinksBack(op: Op, i: Inode) {
    op.Linked? && op.dst == Dest && op.inode == i
  }

  /** The ledger holds `f` aside under `q`, and nothing but linking it back may end that. */
  predicate HeldAside(l: Ledger, d: Disk, q: Name, f: Inode) {
    q in l.aside && l.aside[q] == f && f !in l.created && f !in l.returned && f in d.data
  }

  lemma StaysAside(m: Moment, q: Name, f: Inode)
    requires Possible(m.before, m.op) && m.after == Effect(m.before, m.op) && Safe(m)
    requires HeldAside(m.ledger, m.before, q, f) && q in m.before.entries && m.before.entries[q] == f
    requires !LinksBack(m.op, f)
    ensures HeldAside(Note(m.ledger, m.op), m.after, q, f)
  {
  }

  lemma BecomesAside(m: Moment)
    requires Possible(m.before, m.op) && m.after == Effect(m.before, m.op) && m.before.Sound()
    requires m.op.Moved? && m.op.src == Dest && m.op.inode !in m.ledger.created
    ensures HeldAside(Note(m.ledger, m.op), m.after, m.op.dst, m.op.inode)
  {
  }

  /**
   A file of another process that was moved aside stays linked under the quarantine name until the
   transaction has linked it back at the destination.  (The trace ends at any later moment.)
   */
  lemma {:induction false} ForeignFileStaysLinked(h: seq<Moment>, quiet: bool, i: nat)
    requires Trace(h, quiet) && AllSafe(h)
    requires i < |h|
    requires h[i].op.Moved? && h[i].op.src == Dest && h[i].op.inode !in h[i].ledger.created
    requires forall j | i < j < |h| :: !LinksBack(h[j].op, h[i].op.inode)
    ensures var last := h[|h| - 1];
            && HeldAside(Note(last.ledger, last.op), last.after, h[i].op.dst, h[i].op.inode)
            && h[i].op.dst in last.after.entries && last.after.entries[h[i].op.dst] == h[i].op.inode
  {
    var k := |h| - 1;
    if i == k {
      BecomesAside(h[i]);
    } else {
      var earlier := h[..k];
      ForeignFileStaysLinked(earlier, quiet, i);
      assert earlier[k - 1] == h[k - 1] && FollowsOn(h[k - 1], h[k], quiet);
      assert Safe(h[k - 1]) by { assert AllSafe(earlier); }
      StaysAside(h[k], h[i].op.dst, h[i].op.inode);
    }
  }

  // ---------------------------------------------------------------------------
  // What a crash can leave behind.
  // ---------------------------------------------------------------------------

  /** The durable directory when the pending changes at positions `kept` reached the disk. */
  function Crash(synced: map<Name, Inode>, pending: seq<Change>, kept: set<nat>): map<Name, Inode> {
    if pending == [] then synced
    else
      var k := |pending| - 1;
      var earlier := Crash(synced, pending[..k], kept);
      if k !in kept then earlier
      else if pending[k].inode.Some? then earlier[pending[k].name := pending[k].inode.value]
      else earlier - {pending[k].name}
  }

  /** A crash leaves a name as it was synced or as one of its pending changes made it. */
  lemma {:induction false} CrashValue(synced: map<Name, Inode>, pending: seq<Change>, kept: set<nat>, n: Name)
    ensures var v := Lookup(Crash(synced, pending, kept), n);
            v == Lookup(synced, n) || Change(n, v) in pending
  {
    if pending != [] {
      CrashValue(synced, pending[..|pending| - 1], kept, n);
      assert forall c <- pending[..|pending| - 1] :: c in pending;
    }
  }

  /** What is at stake: the file to replace, if any, its bytes, and the bytes to publish. */
  datatype Plan = Plan(loaded: Option<Inode>, original: Bytes, content: Bytes)

  predicate Published(d: Disk, p: Plan, i: Inode) {
    i in d.solid && d.solid[i] == p.content
  }

  predicate BackupEntry(m: map<Name, Inode>, d: Disk, p: Plan, b: Name) {
    b.Backup? && b in m && m[b] in d.solid && d.solid[m[b]] == p.original
  }

  /** After a crash: the old destination, or all of the new content with the old bytes backed up. */
  ghost predicate CrashSafe(d: Disk, p: Plan, kept: set<nat>) {
    var e := Crash(d.synced, d.pending, kept);
    || (Lookup(e, Dest) == p.loaded
        && (p.loaded.Some? ==> p.loaded.value in d.solid && d.solid[p.loaded.value] == p.original))
    || (Dest in e && Published(d, p, e[Dest]) && (p.loaded.Some? ==> exists b :: BackupEntry(e, d, p, b)))
  }

  predicate DestUntouched(d: Disk, p: Plan) {
    Lookup(d.synced, Dest) == p.loaded && forall c <- d.pending :: c.name != Dest
  }

  ghost predicate DestReplaced(d: Disk, p: Plan) {
    && (Lookup(d.synced, Dest) == p.loaded || (Dest in d.synced && Published(d, p, d.synced[Dest])))
    && (forall c <- d.pending | c.name == Dest :: c.inode.Some? && Published(d, p, c.inode.value))
    && (p.loaded.Some? ==> exists b :: BackupEntry(d.synced, d, p, b) && forall c <- d.pending :: c.name != b)
  }

  /** The part of the disk state that makes every crash safe. */
  ghost predicate Steady(d: Disk, p: Plan) {
    && (p.loaded.Some? ==> p.loaded.value in d.solid && d.solid[p.loaded.value] == p.original)
    && (DestUntouched(d, p) || DestReplaced(d, p))
  }

  lemma SteadyIsCrashSafe(d: Disk, p: Plan, kept: set<nat>)
    requires Steady(d, p)
    ensures CrashSafe(d, p, kept)
  {
    var e := Crash(d.synced, d.pending, kept);
    CrashValue(d.synced, d.pending, kept, Dest);
    if !DestUntouched(d, p) && p.loaded.Some? {
      var b :| BackupEntry(d.synced, d, p, b) && forall c <- d.pending :: c.name != b;
      CrashValue(d.synced, d.pending, kept, b);
      assert BackupEntry(e, d, p, b);
    }
  }

  // ---------------------------------------------------------------------------
  // The directory object: one method for each file operation.
  // ---------------------------------------------------------------------------

  datatype Outcome = Done | Fault | Exists | Missing

  class Directory {
    const quiet: bool                 // no other process is at work
    var disk: Disk
    ghost var ledger: Ledger
    ghost var history: seq<Moment>

    constructor (quiet: bool, disk: Disk)
      requires disk.Sound()
      ensures Valid() && this.quiet == quiet && this.disk == disk
      ensures ledger == Ledger({}, {}, map[]) && history == []
    {
      this.quiet, this.disk := quiet, disk;
      ledger, history := Ledger({}, {}, map[]), [];
    }

    /** A new transaction keeps a record of its own. */
    method StartRecord()
      requires Valid()
      modifies this`ledger, this`history
      ensures Valid() && ledger == Ledger({}, {}, map[]) && history == []
    {
      ledger, history := Ledger({}, {}, map[]), [];
    }

    /** The record is complete up to the disk `d`. */
    ghost predicate Recorded(d: Disk)
      reads this
    {
      && ledger.created <= d.data.Keys
      && Trace(history, quiet)
      && (history != [] ==>
            var last := history[|history| - 1];
            last.after == d && Note(last.ledger, last.op) == ledger)
    }

    ghost predicate Valid()
      reads this
    {
      disk.Sound() && Recorded(disk)
    }

    ghost function View(): (Disk, Ledger, seq<Moment>)
      reads this
    {
      (disk, ledger, history)
    }

    /** One call happened: whatever others did before it, then `m.op`. */
    twostate predicate Stepped(m: Moment)
      reads this
    {
      && history == old(history) + [m]
      && m.ledger == old(ledger) && ledger == Note(m.ledger, m.op)
      && Meddled(old(disk), m.before, quiet, old(ledger).created)
      && Possible(m.before, m.op) && m.after == Effect(m.before, m.op) && disk == m.after
    }

    /** Another process creates, replaces or removes files under names that are not private. */
    method Meddle()
      requires Valid()
      modifies this`disk
      ensures Meddled(old(disk), disk, quiet, ledger.created)
    {
      var actions: nat := *;
      while actions > 0
        invariant Meddled(old(disk), disk, quiet, ledger.created)
      {
        var name: Name := *;
        var inode: Inode := *;
        var content: Bytes := *;
        var remove: bool := *;
        if !quiet && !name.Private() {
          if remove {
            disk := disk.(entries := disk.entries - {name});
          } else if inode in disk.data {
            disk := disk.(entries := disk.entries[name := inode]);
          } else {
            disk := disk.(entries := disk.entries[name := inode], data := disk.data[inode := content]);
          }
        }
        actions := actions - 1;
      }
    }

    /** Carry out one possible operation on the disk. */
    method Apply(op: Op)
      requires Possible(disk, op)
      modifies this`disk
      ensures disk == Effect(old(disk), op)
    {
      match op {
        case Created(n, i) =>
          disk := disk.(entries := disk.entries[n := i], data := disk.data[i := []],
                        pending := disk.pending + [Change(n, Some(i))]);
        case Wrote(i, chunk) => disk := disk.(data := disk.data[i := disk.data[i] + chunk]);
        case SyncedFile(i) => disk := disk.(solid := disk.solid[i := disk.data[i]]);
        case SyncedDirectory => disk := disk.(synced := disk.entries, pending := []);
        case Linked(_, dst, i) =>
          disk := disk.(entries := disk.entries[dst := i], pending := disk.pending + [Change(dst, Some(i))]);
        case Unlinked(n, _) =>
          disk := disk.(entries := disk.entries - {n}, pending := disk.pending + [Change(n, None)]);
        case Moved(src, dst, i, _) =>
          disk := disk.(entries := (disk.entries - {src})[dst := i],
                        pending := disk.pending + [Change(src, None), Change(dst, Some(i))]);
        case _ =>
      }
    }

    /** Carry out one possible operation and record it; `prior` is the disk before others acted. */
    method Perform(ghost prior: Disk, ghost call: Call, op: Op) returns (ghost m: Moment)
      requires Recorded(prior) && Meddled(prior, disk, quiet, ledger.created) && Possible(disk, op)
      modifies this
      ensures Valid()
      ensures m == Moment(old(ledger), old(disk), call, op, Effect(old(disk), op))
      ensures disk == m.after && ledger == Note(m.ledger, op) && history == old(history) + [m]
    {
      m := Moment(ledger, disk, call, op, Effect(disk, op));
      EffectStaysSound(ledger, disk, op);
      ghost var was := history;
      Apply(op);
      ledger := Note(ledger, op);
      history := history + [m];
      assert history[..|history| - 1] == was;
    }

    /** A call that leaves the directory alone: opening it, changing a mode. */
    method Attempt(ghost call: Call) returns (r: Outcome, ghost m: Moment)
      requires Valid()
      modifies this
      ensures Valid() && Stepped(m) && m.call == call
      ensures m.op == (if r == Done then Nothing else Failed) && r in {Done, Fault}
    {
      ghost var prior := disk;
      Meddle();
      var fault: bool := *;
      if fault {
        m := Perform(prior, call, Failed);
        return Fault, m;
      }
      m := Perform(prior, call, Nothing);
      r := Done;
    }

    /** Open a new file exclusively. */
    method Create(n: Name) returns (r: Outcome, i: Inode, ghost m: Moment)
      requires Valid()
      modifies this
      ensures Valid() && Stepped(m) && m.call == Creating(n)
      ensures match r
              case Done => m.op == Created(n, i)
              case Exists => m.op == Refused && n in m.before.entries
              case Fault => m.op == Failed
              case Missing => false
    {
      ghost var prior := disk;
      Meddle();
      var fault: bool := *;
      i := *;
      if fault || (n !in disk.entries && i in disk.data) {
        m := Perform(prior, Creating(n), Failed);
        r := Fault;
      } else if n in disk.entries {
        m := Perform(prior, Creating(n), Refused);
        r := Exists;
      } else {
        m := Perform(prior, Creating(n), Created(n, i));
        r := Done;
      }
    }

    /** Write some prefix of `chunk`; a write may make no progress. */
    method Write(i: Inode, chunk: Bytes) returns (r: Outcome, written: nat, ghost m: Moment)
      requires Valid() && i in ledger.created
      modifies this
      ensures Valid() && Stepped(m) && m.call == Writing(i)
      ensures written <= |chunk| && r in {Done, Fault}
      ensures r == Done ==> m.op == Wrote(i, chunk[..written])
      ensures r == Fault ==> m.op == Failed
    {
      ghost var prior := disk;
      Meddle();
      var fault: bool := *;
      var progress: int := *;
      if fault || !(0 <= progress <= |chunk|) || i !in disk.data {
        m := Perform(prior, Writing(i), Failed);
        return Fault, 0, m;
      }
      written := progress;
      m := Perform(prior, Writing(i), Wrote(i, chunk[..written]));
      r := Done;
    }

    method SyncFile(i: Inode) returns (r: Outcome, ghost m: Moment)
      requires Valid() && i in ledger.created
      modifies this
      ensures Valid() && Stepped(m) && m.call == SyncingFile(i)
      ensures m.op == (if r == Done then SyncedFile(i) else Failed) && r in {Done, Fault}
    {
      ghost var prior := disk;
      Meddle();
      var fault: bool := *;
      if fault || i !in disk.data {
        m := Perform(prior, SyncingFile(i), Failed);
        return Fault, m;
      }
      m := Perform(prior, SyncingFile(i), SyncedFile(i));
      r := Done;
    }

    method SyncDirectory() returns (r: Outcome, ghost m: Moment)
      requires Valid()
      modifies this
      ensures Valid() && Stepped(m) && m.call == SyncingDirectory
      ensures m.op == (if r == Done then SyncedDirectory else Failed) && r in {Done, Fault}
    {
      ghost var prior := disk;
      Meddle();
      var fault: bool := *;
      if fault {
        m := Perform(prior, SyncingDirectory, Failed);
        return Fault, m;
      }
      m := Perform(prior, SyncingDirectory, SyncedDirectory);
      r := Done;
    }

    method Link(src: Name, dst: Name) returns (r: Outcome, ghost m: Moment)
      requires Valid()
      modifies this
      ensures Valid() && Stepped(m) && m.call == Linking(src, dst)
      ensures match r
              case Done => m.op.Linked? && m.op.src == src && m.op.dst == dst
              case Exists => m.op == Refused && dst in m.before.entries
              case Missing => m.op == Refused && src !in m.before.entries
              case Fault => m.op == Failed
    {
      ghost var prior := disk;
      Meddle();
      var fault: bool := *;
      if fault {
        m := Perform(prior, Linking(src, dst), Failed);
        r := Fault;
      } else if src !in disk.entries {
        m := Perform(prior, Linking(src, dst), Refused);
        r := Missing;
      } else if dst in disk.entries {
        m := Perform(prior, Linking(src, dst), Refused);
        r := Exists;
      } else {
        m := Perform(prior, Linking(src, dst), Linked(src, dst, disk.entries[src]));
        r := Done;
      }
    }

    method Unlink(n: Name) returns (r: Outcome, ghost m: Moment)
      requires Valid()
      modifies this
      ensures Valid() && Stepped(m) && m.call == Unlinking(n)
      ensures match r
              case Done => m.op.Unlinked? && m.op.name == n
              case Missing => m.op == Refused && n !in m.before.entries
              case Fault => m.op == Failed
              case Exists => false
    {
      ghost var prior := disk;
      Meddle();
      var fault: bool := *;
      if fault {
        m := Perform(prior, Unlinking(n), Failed);
        r := Fault;
      } else if n !in disk.entries {
        m := Perform(prior, Unlinking(n), Refused);
        r := Missing;
      } else {
        m := Perform(prior, Unlinking(n), Unlinked(n, disk.entries[n]));
        r := Done;
      }
    }

    /** Rename over whatever `dst` names; two links of one file are left as they are. */
    method Rename(src: Name, dst: Name) returns (r: Outcome, ghost m: Moment)
      requires Valid()
      modifies this
      ensures Valid() && Stepped(m) && m.call == Renaming(src, dst)
      ensures match r
              case Done =>
                && src in m.before.entries
                && (if dst in m.before.entries && m.before.entries[dst] == m.before.entries[src]
                    then m.op == Nothing
                    else m.op.Moved? && m.op.src == src && m.op.dst == dst)
              case Missing => m.op == Refused && src !in m.before.entries
              case Fault => m.op == Failed
              case Exists => false
    {
      ghost var prior := disk;
      Meddle();
      var fault: bool := *;
      if fault {
        m := Perform(prior, Renaming(src, dst), Failed);
        r := Fault;
      } else if src !in disk.entries {
        m := Perform(prior, Renaming(src, dst), Refused);
        r := Missing;
      } else {
        var displaced := if dst in disk.entries then Some(disk.entries[dst]) else None;
        if displaced == Some(disk.entries[src]) {
          m := Perform(prior, Renaming(src, dst), Nothing);
        } else {
          m := Perform(prior, Renaming(src, dst), Moved(src, dst, disk.entries[src], displaced));
        }
        r := Done;
      }
    }

    /** The identity of the file a name links. */
    method Stat(n: Name) returns (r: Outcome, i: Inode, ghost m: Moment)
      requires Valid()
      modifies this
      ensures Valid() && Stepped(m) && m.call == Stating(n)
      ensures match r
              case Done => m.op == Nothing && n in m.before.entries && i == m.before.entries[n]
              case Missing => m.op == Refused && n !in m.before.entries
              case Fault => m.op == Failed
              case Exists => false
    {
      ghost var prior := disk;
      Meddle();
      var fault: bool := *;
      i := 0;
      if fault {
        m := Perform(prior, Stating(n), Failed);
        r := Fault;
      } else if n !in disk.entries {
        m := Perform(prior, Stating(n), Refused);
        r := Missing;
      } else {
        i := disk.entries[n];
        m := Perform(prior, Stating(n), Nothing);
        r := Done;
      }
    }

    method Read(n: Name) returns (r: Outcome, content: Bytes, ghost m: Moment)
      requires Valid()
      modifies this
      ensures Valid() && Stepped(m) && m.call == Reading(n)
      ensures match r
              case Done => m.op == Nothing && m.before.Holds(n, content)
              case Missing => m.op == Refused && n !in m.before.entries
              case Fault => m.op == Failed
              case Exists => false
    {
      ghost var prior := disk;
      Meddle();
      var fault: bool := *;
      content := [];
      if fault {
        m := Perform(prior, Reading(n), Failed);
        r := Fault;
      } else if n !in disk.entries {
        m := Perform(prior, Reading(n), Refused);
        r := Missing;
      } else {
        content := disk.data[disk.entries[n]];
        m := Perform(prior, Reading(n), Nothing);
        r := Done;
      }
    }
  }
}
