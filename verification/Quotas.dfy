/** Storage limits hold in every reachable state of the upload protocol. */
module Quotas {
  import opened Collections
  import opened Outcomes
  import opened Sums
  import opened Storage
  import opened UploadProtocol

  /** The promised limits, as of time `now`. */
  ghost predicate WithinQuota(rows: map<FileId, Row>, now: int)
  {
    && Sum(ActiveSizes(rows)) <= GLOBAL_QUOTA
    && |ActiveSizes(rows)| <= MAX_ACTIVE_FILES
    && (forall u :: Sum(OwnerSizes(rows, u)) <= OWNER_QUOTA)
    && (forall u :: |RecordsOf(rows, u)| <= MAX_RECORDS_PER_OWNER)
    && (forall u :: |UnexpiredOf(rows, u, now)| <= MAX_ACTIVE_FILES_PER_OWNER)
  }

  /** One row of a table less active than the other's: gone, or same owner and size with a weaker state. */
  predicate Weaker(before: Row, after: Row)
  {
    && after.owner == before.owner && after.size == before.size && after.expires == before.expires
    && (IsActive(after) ==> IsActive(before))
    && (after.state != Deleted ==> before.state != Deleted)
  }

  ghost predicate Shrinks(a: map<FileId, Row>, b: map<FileId, Row>)
  {
    forall k :: k in b ==> k in a && Weaker(a[k], b[k])
  }

  /** Losing rows, weakening states or letting time pass never breaks a limit. */
  lemma ShrinkKeeps(a: map<FileId, Row>, b: map<FileId, Row>, now: int, later: int)
    requires WithinQuota(a, now) && Shrinks(a, b) && now <= later
    ensures WithinQuota(b, later)
  {
    SumShrinks(ActiveSizes(b), ActiveSizes(a));
    SubsetSize(ActiveSizes(b).Keys, ActiveSizes(a).Keys);
    forall u
      ensures Sum(OwnerSizes(b, u)) <= OWNER_QUOTA
      ensures |RecordsOf(b, u)| <= MAX_RECORDS_PER_OWNER
      ensures |UnexpiredOf(b, u, later)| <= MAX_ACTIVE_FILES_PER_OWNER
    {
      SumShrinks(OwnerSizes(b, u), OwnerSizes(a, u));
      SubsetSize(RecordsOf(b, u), RecordsOf(a, u));
      SubsetSize(UnexpiredOf(b, u, later), UnexpiredOf(a, u, now));
    }
  }

  lemma AddRow(rows: map<FileId, Row>, id: FileId, row: Row, now: int)
    requires id !in rows && row.state == Uploading
    ensures var t := rows[id := row];
            && ActiveSizes(t) == ActiveSizes(rows)[id := row.size]
            && Sum(ActiveSizes(t)) == Sum(ActiveSizes(rows)) + row.size
            && |ActiveSizes(t)| == |ActiveSizes(rows)| + 1
  {
    var t := rows[id := row];
    assert ActiveSizes(t) == ActiveSizes(rows)[id := row.size];
    SumUpdate(ActiveSizes(rows), id, row.size);
    assert ActiveSizes(t).Keys == ActiveSizes(rows).Keys + {id};
  }

  lemma AddRowOwner(rows: map<FileId, Row>, id: FileId, row: Row, now: int, u: User)
    requires id !in rows && row.state == Uploading
    ensures var t := rows[id := row];
            if u == row.owner then
              && Sum(OwnerSizes(t, u)) == Sum(OwnerSizes(rows, u)) + row.size
              && |RecordsOf(t, u)| == |RecordsOf(rows, u)| + 1
              && |UnexpiredOf(t, u, now)| <= |UnexpiredOf(rows, u, now)| + 1
            else
              && OwnerSizes(t, u) == OwnerSizes(rows, u)
              && RecordsOf(t, u) == RecordsOf(rows, u)
              && UnexpiredOf(t, u, now) == UnexpiredOf(rows, u, now)
  {
    var t := rows[id := row];
    if u == row.owner {
      assert OwnerSizes(t, u) == OwnerSizes(rows, u)[id := row.size];
      SumUpdate(OwnerSizes(rows, u), id, row.size);
      assert RecordsOf(t, u) == RecordsOf(rows, u) + {id};
      SubsetSize(UnexpiredOf(t, u, now), UnexpiredOf(rows, u, now) + {id});
    }
  }

  /** What an admitted request finds: room under every limit. */
  lemma AdmittedHasRoom(rows: map<FileId, Row>, id: FileId, user: User, size: int, ttl: int, envelope: string, now: int)
    requires Admit(rows, id, user, size, ttl, envelope, now) == Fresh
    ensures id !in rows && 0 <= size
    ensures |UnexpiredOf(rows, user, now)| < MAX_ACTIVE_FILES_PER_OWNER
    ensures |RecordsOf(rows, user)| < MAX_RECORDS_PER_OWNER
    ensures |ActiveSizes(rows)| < MAX_ACTIVE_FILES
    ensures Sum(ActiveSizes(rows)) + size <= GLOBAL_QUOTA && Sum(OwnerSizes(rows, user)) + size <= OWNER_QUOTA
  {
  }

  lemma AdmittedFits(rows: map<FileId, Row>, id: FileId, row: Row, ttl: int, now: int)
    requires WithinQuota(rows, now) && row.state == Uploading
    requires Admit(rows, id, row.owner, row.size, ttl, row.envelope, now) == Fresh
    ensures WithinQuota(rows[id := row], now)
  {
    var t := rows[id := row];
    AdmittedHasRoom(rows, id, row.owner, row.size, ttl, row.envelope, now);
    AddRow(rows, id, row, now);
    forall u
      ensures Sum(OwnerSizes(t, u)) <= OWNER_QUOTA
      ensures |RecordsOf(t, u)| <= MAX_RECORDS_PER_OWNER
      ensures |UnexpiredOf(t, u, now)| <= MAX_ACTIVE_FILES_PER_OWNER
    {
      AddRowOwner(rows, id, row, now, u);
    }
  }

  lemma FreshRows(s: Store, id: FileId, row: Row, io: Io)
    ensures CreateFresh(s, id, row, io).0.rows == s.rows || CreateFresh(s, id, row, io).0.rows == s.rows[id := row]
  {
  }

  /** A new file is admitted only where every limit has room for it; a retry takes none. */
  lemma CreateKeepsQuota(s: Store, id: FileId, user: User, size: int, ttl: int, envelope: string, now: int, io: Io)
    requires WithinQuota(s.rows, now)
    ensures WithinQuota(Create(s, id, user, size, ttl, envelope, now, io).0.rows, now)
    ensures Admit(s.rows, id, user, size, ttl, envelope, now).Retry? ==>
              Create(s, id, user, size, ttl, envelope, now, io) == (s, Ok(s.rows[id]))
  {
    if Admit(s.rows, id, user, size, ttl, envelope, now) == Fresh {
      AdmittedHasRoom(s.rows, id, user, size, ttl, envelope, now);
      var row := Row(user, size, now + ttl, now, Uploading, envelope);
      AdmittedFits(s.rows, id, row, ttl, now);
      FreshRows(s, id, row, io);
    }
  }

  /** Finishing, deleting and expiring never make anything more active than it was. */
  lemma FinishShrinks(s: Store, id: FileId, user: User, now: int)
    ensures Shrinks(s.rows, Finish(s, id, user, now).0.rows)
  {
  }

  lemma DeleteShrinks(s: Store, id: FileId, user: User, io: Io)
    ensures Shrinks(s.rows, Delete(s, id, user, io).0.rows)
  {
  }

  lemma ExpireShrinks(s: Store, id: FileId, cutoff: int, io: Io)
    ensures Shrinks(s.rows, Expire(s, id, cutoff, io).rows)
  {
  }

  lemma FileStepKeepsQuota(s: State, e: FileStep)
    requires WithinQuota(s.store.rows, s.now) && FileEnabled(s, e)
    ensures WithinQuota(FileApply(s, e).store.rows, s.now)
  {
    var t := FileApply(s, e);
    if e.CreateFile? {
      CreateKeepsQuota(s.store, e.id, e.user, e.size, e.ttl, e.envelope, s.now, e.io);
    } else {
      assert Shrinks(s.store.rows, t.store.rows) by {
        match e
        case FinishFile(id, user) => FinishShrinks(s.store, id, user, s.now);
        case DeleteFile(id, user, io) => DeleteShrinks(s.store, id, user, io);
        case CleanEnd(id, io) => ExpireShrinks(s.store, id, s.cleaner.cutoff, io);
        case _ =>
      }
      ShrinkKeeps(s.store.rows, t.store.rows, s.now, s.now);
    }
  }

  lemma UploadKeepsRows(s: State, e: UploadStep)
    requires UploadEnabled(s, e)
    ensures UploadApply(s, e).store.rows == s.store.rows && UploadApply(s, e).now == s.now
  {
  }

  lemma ReadKeepsRows(s: State, e: ReadStep)
    requires ReadEnabled(s, e)
    ensures ReadApply(s, e).store.rows == s.store.rows && ReadApply(s, e).now == s.now
  {
  }

  /** Everything but the file operations leaves the table of files alone. */
  lemma OtherStepKeepsRows(s: State, e: Event)
    requires Enabled(s, e) && !e.Files?
    ensures Apply(s, e).store.rows == s.store.rows && s.now <= Apply(s, e).now
  {
    match e
    case Uploads(u) => UploadKeepsRows(s, u);
    case Reads(r) => ReadKeepsRows(s, r);
    case Tick(now, mono) =>
    case Restart(survivors) =>
  }

  lemma StepKeepsQuota(s: State, e: Event)
    requires WithinQuota(s.store.rows, s.now) && Enabled(s, e)
    ensures WithinQuota(Apply(s, e).store.rows, Apply(s, e).now)
  {
    if e.Files? {
      FileStepKeepsQuota(s, e.file);
    } else {
      OtherStepKeepsRows(s, e);
      ShrinkKeeps(s.store.rows, s.store.rows, s.now, Apply(s, e).now);
    }
  }

  lemma {:induction false} RunKeepsQuota(s: State, run: seq<Event>)
    requires WithinQuota(s.store.rows, s.now) && IsRun(s, run)
    ensures WithinQuota(After(s, run).store.rows, After(s, run).now)
    decreases |run|
  {
    if run != [] {
      StepKeepsQuota(s, run[0]);
      RunKeepsQuota(Apply(s, run[0]), run[1..]);
    }
  }

  /** From an empty store, no interleaving of any operations and no passage of time exceeds a limit. */
  lemma QuotaAlwaysHolds(run: seq<Event>)
    requires IsRun(INITIAL, run)
    ensures WithinQuota(After(INITIAL, run).store.rows, After(INITIAL, run).now)
  {
    assert ActiveSizes(map[]) == map[];
    forall u
      ensures Sum(OwnerSizes(map[], u)) <= OWNER_QUOTA
    {
      assert OwnerSizes(map[], u) == map[];
    }
    RunKeepsQuota(INITIAL, run);
  }
}
