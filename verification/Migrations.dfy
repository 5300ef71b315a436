/**
 Line endings and checksums of migration files, the applied-migration table, and the
 upgrade assessment that is made from it. The hash is an arbitrary function.
 */
module LineEndings {
  const CR := '\r'
  const LF := '\n'

  /** Every CR LF pair, from left to right, made a single LF. */
  function ReplaceCrlf(s: string): string {
    if |s| >= 2 && s[0] == CR && s[1] == LF then [LF] + ReplaceCrlf(s[2..])
    else if s == [] then []
    else [s[0]] + ReplaceCrlf(s[1..])
  }

  function ReplaceCr(s: string): (r: string)
    ensures |r| == |s| && CR !in r
  {
    if s == [] then [] else [if s[0] == CR then LF else s[0]] + ReplaceCr(s[1..])
  }

  function NormalizeSqlForChecksum(sql: string): string {
    ReplaceCr(ReplaceCrlf(sql))
  }

  /** The copy of a text in which every LF is written CR LF. */
  function ToCrlf(s: string): string {
    if s == [] then [] else (if s[0] == LF then [CR, LF] else [s[0]]) + ToCrlf(s[1..])
  }

  ghost predicate HasCrlf(s: string) {
    exists i: nat :: i + 1 < |s| && s[i] == CR && s[i + 1] == LF
  }

  lemma {:induction false} ReplaceCrlfShortens(s: string)
    ensures |ReplaceCrlf(s)| <= |s|
    ensures ReplaceCrlf(s) == s <==> !HasCrlf(s)
    ensures HasCrlf(s) ==> |ReplaceCrlf(s)| < |s|
    decreases |s|
  {
    if |s| >= 2 && s[0] == CR && s[1] == LF {
      ReplaceCrlfShortens(s[2..]);
      assert s[0] == CR && s[0 + 1] == LF;
    } else if s != [] {
      var rest := s[1..];
      ReplaceCrlfShortens(rest);
      assert HasCrlf(rest) ==> HasCrlf(s) by {
        if i: nat :| i + 1 < |rest| && rest[i] == CR && rest[i + 1] == LF {
          assert s[i + 1] == CR && s[i + 1 + 1] == LF;
        }
      }
      if HasCrlf(s) {
        var i: nat :| i + 1 < |s| && s[i] == CR && s[i + 1] == LF;
        assert rest[i - 1] == CR && rest[i - 1 + 1] == LF;
      }
    }
  }

  lemma {:induction false} ReplaceCrOfCrFree(s: string)
    requires CR !in s
    ensures ReplaceCr(s) == s
  {
    if s != [] {
      ReplaceCrOfCrFree(s[1..]);
      assert s == [s[0]] + s[1..];
    }
  }

  /** The normal form has no CR, and exactly the texts without one are left alone. */
  lemma {:induction false} NormalFormHasNoCr(s: string)
    ensures CR !in NormalizeSqlForChecksum(s)
    ensures NormalizeSqlForChecksum(s) == s <==> CR !in s
    ensures NormalizeSqlForChecksum(NormalizeSqlForChecksum(s)) == NormalizeSqlForChecksum(s)
  {
    var normal := NormalizeSqlForChecksum(s);
    ReplaceCrlfShortens(normal);
    ReplaceCrOfCrFree(normal);
    if CR !in s {
      ReplaceCrlfShortens(s);
      ReplaceCrOfCrFree(s);
    }
  }

  /** Writing CR LF is undone by replacing CR LF, whatever lone CRs the text holds. */
  lemma {:induction false} ReplaceCrlfUndoesToCrlf(s: string)
    ensures ToCrlf(s) == [] || ToCrlf(s)[0] != LF
    ensures ReplaceCrlf(ToCrlf(s)) == s
  {
    if s != [] {
      ReplaceCrlfUndoesToCrlf(s[1..]);
      var t := ToCrlf(s);
      if s[0] == LF {
        assert t[2..] == ToCrlf(s[1..]);
      } else {
        assert t[1..] == ToCrlf(s[1..]);
      }
      assert s == [s[0]] + s[1..];
    }
  }

  /**
   A copy written with CR LF normalises like its original exactly when the original holds
   no CR LF pair of its own.
   */
  lemma {:induction false} CrlfCopyNormalizesAlikeIffNoCrlf(s: string)
    ensures NormalizeSqlForChecksum(ToCrlf(s)) == NormalizeSqlForChecksum(s) <==> !HasCrlf(s)
    ensures CR !in s ==> NormalizeSqlForChecksum(ToCrlf(s)) == s
  {
    ReplaceCrlfUndoesToCrlf(s);
    ReplaceCrlfShortens(s);
    if CR !in s {
      ReplaceCrOfCrFree(s);
    }
  }
}

module Migrations {
  import opened Text
  import opened LineEndings

  type Digest = string -> string

  datatype Migration = Migration(version: int, name: string, checksum: string, sql: string)

  datatype Applied = Applied(version: int, name: string, checksum: string)

  function MigrationChecksum(sql: string, digest: Digest): string {
    digest(NormalizeSqlForChecksum(sql))
  }

  function CompatibleChecksums(m: Migration, digest: Digest): set<string> {
    {m.checksum, digest(m.sql), digest(ToCrlf(NormalizeSqlForChecksum(m.sql)))}
  }

  /**
   Whichever line endings a migration file is read with, its checksum is the same, and the
   raw checksums that were recorded for its LF and its CR LF copies stay compatible.
   */
  lemma {:induction false} LineEndingCopiesStayCompatible(text: string, m: Migration, digest: Digest)
    requires CR !in text
    requires m.sql == text || m.sql == ToCrlf(text)
    requires m.checksum == MigrationChecksum(m.sql, digest)
    ensures m.checksum == MigrationChecksum(text, digest) == digest(text)
    ensures {digest(text), digest(ToCrlf(text))} <= CompatibleChecksums(m, digest)
  {
    NormalFormHasNoCr(text);
    CrlfCopyNormalizesAlikeIffNoCrlf(text);
  }

  // ----- History validation ------------------------------------------------------------------

  datatype HistoryVerdict =
    | Accepted
    | UnexpectedVersion(version: int)
    | OutOfOrder(position: nat, expected: int, found: int)
    | ChecksumMismatch(version: int)

  function ValidateFrom(discovered: seq<Migration>, applied: seq<Applied>, digest: Digest, index: nat): HistoryVerdict
    requires index <= |applied|
    decreases |applied| - index
  {
    if index == |applied| then Accepted
    else if index >= |discovered| then UnexpectedVersion(applied[index].version)
    else if applied[index].version != discovered[index].version then
      OutOfOrder(index + 1, discovered[index].version, applied[index].version)
    else if applied[index].checksum !in CompatibleChecksums(discovered[index], digest) then
      ChecksumMismatch(applied[index].version)
    else ValidateFrom(discovered, applied, digest, index + 1)
  }

  function ValidateAppliedHistory(discovered: seq<Migration>, applied: seq<Applied>, digest: Digest): HistoryVerdict {
    ValidateFrom(discovered, applied, digest, 0)
  }

  predicate StrictlyIncreasing(discovered: seq<Migration>) {
    forall i, j | 0 <= i < j < |discovered| :: discovered[i].version < discovered[j].version
  }

  function Versions(discovered: seq<Migration>): (r: seq<int>)
    ensures |r| == |discovered|
    ensures forall i | 0 <= i < |r| :: r[i] == discovered[i].version
  {
    seq(|discovered|, i requires 0 <= i < |discovered| => discovered[i].version)
  }

  function AppliedVersions(applied: seq<Applied>): (r: seq<int>)
    ensures |r| == |applied|
    ensures forall i | 0 <= i < |r| :: r[i] == applied[i].version
  {
    seq(|applied|, i requires 0 <= i < |applied| => applied[i].version)
  }

  /** A prefix of the discovered migrations, each with a checksum the file still stands for. */
  predicate IsCompatiblePrefix(discovered: seq<Migration>, applied: seq<Applied>, digest: Digest) {
    && |applied| <= |discovered|
    && AppliedVersions(applied) == Versions(discovered)[..|applied|]
    && forall i | 0 <= i < |applied| :: applied[i].checksum in CompatibleChecksums(discovered[i], digest)
  }

  lemma {:induction false} AcceptedIffCompatiblePrefixFrom(
      discovered: seq<Migration>, applied: seq<Applied>, digest: Digest, index: nat)
    requires index <= |applied|
    ensures ValidateFrom(discovered, applied, digest, index).Accepted? <==>
            forall i | index <= i < |applied| ::
              && i < |discovered| && applied[i].version == discovered[i].version
              && applied[i].checksum in CompatibleChecksums(discovered[i], digest)
    decreases |applied| - index
  {
    if index < |applied| {
      AcceptedIffCompatiblePrefixFrom(discovered, applied, digest, index + 1);
    }
  }

  lemma {:induction false} AcceptedIffCompatiblePrefix(discovered: seq<Migration>, applied: seq<Applied>, digest: Digest)
    ensures ValidateAppliedHistory(discovered, applied, digest).Accepted? <==>
            IsCompatiblePrefix(discovered, applied, digest)
  {
    AcceptedIffCompatiblePrefixFrom(discovered, applied, digest, 0);
    if ValidateAppliedHistory(discovered, applied, digest).Accepted? && applied != [] {
      var last := |applied| - 1;
      assert applied[last].version == discovered[last].version;
    }
  }

  /** Applied migration `k` is the first that does not fit, for this reason. */
  predicate IsFirstFault(discovered: seq<Migration>, applied: seq<Applied>, digest: Digest, k: nat, verdict: HistoryVerdict)
    requires k < |applied|
  {
    && k <= |discovered| && IsCompatiblePrefix(discovered, applied[..k], digest)
    && match verdict
       case Accepted => false
       case UnexpectedVersion(version) => k == |discovered| && version == applied[k].version
       case OutOfOrder(position, expected, found) =>
         && k < |discovered| && applied[k].version != discovered[k].version
         && position == k + 1 && expected == discovered[k].version && found == applied[k].version
       case ChecksumMismatch(version) =>
         && k < |discovered| && version == applied[k].version == discovered[k].version
         && applied[k].checksum !in CompatibleChecksums(discovered[k], digest)
  }

  lemma {:induction false} RefusalFromNamesTheFirstFault(
      discovered: seq<Migration>, applied: seq<Applied>, digest: Digest, index: nat) returns (k: nat)
    requires index < |applied| && index <= |discovered| && IsCompatiblePrefix(discovered, applied[..index], digest)
    requires !ValidateFrom(discovered, applied, digest, index).Accepted?
    ensures k < |applied| && IsFirstFault(discovered, applied, digest, k, ValidateFrom(discovered, applied, digest, index))
    decreases |applied| - index
  {
    k := index;
    if index < |discovered| && applied[index].version == discovered[index].version
       && applied[index].checksum in CompatibleChecksums(discovered[index], digest)
    {
      assert AppliedVersions(applied[..index + 1]) == AppliedVersions(applied[..index]) + [applied[index].version];
      assert forall i | 0 <= i < index :: applied[..index][i] == applied[..index + 1][i];
      k := RefusalFromNamesTheFirstFault(discovered, applied, digest, index + 1);
    }
  }

  /** A refusal names the first applied migration that does not fit, and why. */
  lemma {:induction false} RefusalNamesTheFirstFault(discovered: seq<Migration>, applied: seq<Applied>, digest: Digest)
    requires !ValidateAppliedHistory(discovered, applied, digest).Accepted?
    ensures exists k :: 0 <= k < |applied| && IsFirstFault(discovered, applied, digest, k, ValidateAppliedHistory(discovered, applied, digest))
  {
    assert IsCompatiblePrefix(discovered, applied[..0], digest);
    var k := RefusalFromNamesTheFirstFault(discovered, applied, digest, 0);
  }

  // ----- Metadata normalisation -----------------------------------------------------------------

  function Recorded(m: Migration): Applied {
    Applied(m.version, m.name, m.checksum)
  }

  function NormalizedRow(row: Applied, m: Migration, digest: Digest): Applied {
    if row.version == m.version && row.checksum in CompatibleChecksums(m, digest)
    then row.(name := m.name, checksum := m.checksum)
    else row
  }

  /** The effect of one UPDATE statement. */
  function UpdateMatching(rows: seq<Applied>, m: Migration, digest: Digest): (r: seq<Applied>)
    ensures |r| == |rows| && forall i | 0 <= i < |r| :: r[i] == NormalizedRow(rows[i], m, digest)
  {
    seq(|rows|, i requires 0 <= i < |rows| => NormalizedRow(rows[i], m, digest))
  }

  function NormalizedMetadata(rows: seq<Applied>, discovered: seq<Migration>, digest: Digest): seq<Applied>
    decreases |discovered|
  {
    if discovered == [] then rows
    else NormalizedMetadata(UpdateMatching(rows, discovered[0], digest), discovered[1..], digest)
  }

  function RowAfterAll(row: Applied, discovered: seq<Migration>, digest: Digest): Applied
    decreases |discovered|
  {
    if discovered == [] then row
    else RowAfterAll(NormalizedRow(row, discovered[0], digest), discovered[1..], digest)
  }

  lemma {:induction false} NormalizedMetadataRowByRow(rows: seq<Applied>, discovered: seq<Migration>, digest: Digest)
    ensures |NormalizedMetadata(rows, discovered, digest)| == |rows|
    ensures forall i | 0 <= i < |rows| ::
              NormalizedMetadata(rows, discovered, digest)[i] == RowAfterAll(rows[i], discovered, digest)
    decreases |discovered|
  {
    if discovered != [] {
      NormalizedMetadataRowByRow(UpdateMatching(rows, discovered[0], digest), discovered[1..], digest);
    }
  }

  lemma {:induction false} RowAfterForeignMigrations(row: Applied, discovered: seq<Migration>, digest: Digest)
    requires forall m | m in discovered :: m.version != row.version
    ensures RowAfterAll(row, discovered, digest) == row
    decreases |discovered|
  {
    if discovered != [] {
      assert discovered[0] in discovered;
      RowAfterForeignMigrations(row, discovered[1..], digest);
    }
  }

  lemma {:induction false} RowAfterOwnMigration(row: Applied, discovered: seq<Migration>, digest: Digest, k: nat)
    requires StrictlyIncreasing(discovered) && k < |discovered| && discovered[k].version == row.version
    ensures RowAfterAll(row, discovered, digest) == NormalizedRow(row, discovered[k], digest)
    decreases |discovered|
  {
    var first, rest := discovered[0], discovered[1..];
    if k == 0 {
      RowAfterForeignMigrations(NormalizedRow(row, first, digest), rest, digest);
    } else {
      assert NormalizedRow(row, first, digest) == row;
      RowAfterOwnMigration(row, rest, digest, k - 1);
    }
  }

  /** A row either has a discovered migration of its own version or is never touched. */
  lemma {:induction false} RowAfterAllCases(row: Applied, discovered: seq<Migration>, digest: Digest)
    requires StrictlyIncreasing(discovered)
    ensures RowAfterAll(row, discovered, digest).version == row.version
    ensures forall k | 0 <= k < |discovered| && discovered[k].version == row.version ::
              RowAfterAll(row, discovered, digest) == NormalizedRow(row, discovered[k], digest)
    ensures RowAfterAll(RowAfterAll(row, discovered, digest), discovered, digest) == RowAfterAll(row, discovered, digest)
  {
    var after := RowAfterAll(row, discovered, digest);
    if k :| 0 <= k < |discovered| && discovered[k].version == row.version {
      RowAfterOwnMigration(row, discovered, digest, k);
      RowAfterOwnMigration(after, discovered, digest, k);
    } else {
      forall m | m in discovered ensures m.version != row.version {
        var i :| 0 <= i < |discovered| && discovered[i] == m;
      }
      RowAfterForeignMigrations(row, discovered, digest);
    }
    forall k | 0 <= k < |discovered| && discovered[k].version == row.version
      ensures after == NormalizedRow(row, discovered[k], digest)
    {
      RowAfterOwnMigration(row, discovered, digest, k);
    }
  }

  lemma {:induction false} SameVerdictFrom(
      discovered: seq<Migration>, rows: seq<Applied>, after: seq<Applied>, digest: Digest, index: nat)
    requires StrictlyIncreasing(discovered) && |after| == |rows| && index <= |rows|
    requires forall i | 0 <= i < |rows| :: after[i] == RowAfterAll(rows[i], discovered, digest)
    ensures ValidateFrom(discovered, after, digest, index) == ValidateFrom(discovered, rows, digest, index)
    decreases |rows| - index
  {
    if index < |rows| {
      RowAfterAllCases(rows[index], discovered, digest);
      SameVerdictFrom(discovered, rows, after, digest, index + 1);
    }
  }

  /** Rewriting the metadata never changes the verdict on a history, and once is enough. */
  lemma {:induction false} MetadataRewriteKeepsVerdict(rows: seq<Applied>, discovered: seq<Migration>, digest: Digest)
    requires StrictlyIncreasing(discovered)
    ensures ValidateAppliedHistory(discovered, NormalizedMetadata(rows, discovered, digest), digest)
         == ValidateAppliedHistory(discovered, rows, digest)
    ensures NormalizedMetadata(NormalizedMetadata(rows, discovered, digest), discovered, digest)
         == NormalizedMetadata(rows, discovered, digest)
    ensures AppliedVersions(NormalizedMetadata(rows, discovered, digest)) == AppliedVersions(rows)
  {
    var after := NormalizedMetadata(rows, discovered, digest);
    NormalizedMetadataRowByRow(rows, discovered, digest);
    NormalizedMetadataRowByRow(after, discovered, digest);
    SameVerdictFrom(discovered, rows, after, digest, 0);
    forall i | 0 <= i < |rows|
      ensures NormalizedMetadata(after, discovered, digest)[i] == after[i] && after[i].version == rows[i].version
    {
      RowAfterAllCases(rows[i], discovered, digest);
    }
  }

  function RecordedRows(discovered: seq<Migration>): (r: seq<Applied>)
    ensures |r| == |discovered|
    ensures forall i | 0 <= i < |r| :: r[i] == Recorded(discovered[i])
  {
    seq(|discovered|, i requires 0 <= i < |discovered| => Recorded(discovered[i]))
  }

  /** An accepted history is rewritten to exactly what applying the same migrations now would record. */
  lemma {:induction false} AcceptedHistoryNormalForm(rows: seq<Applied>, discovered: seq<Migration>, digest: Digest)
    requires StrictlyIncreasing(discovered)
    requires ValidateAppliedHistory(discovered, rows, digest).Accepted?
    ensures |rows| <= |discovered|
    ensures NormalizedMetadata(rows, discovered, digest) == RecordedRows(discovered[..|rows|])
  {
    AcceptedIffCompatiblePrefix(discovered, rows, digest);
    NormalizedMetadataRowByRow(rows, discovered, digest);
    forall i | 0 <= i < |rows|
      ensures NormalizedMetadata(rows, discovered, digest)[i] == RecordedRows(discovered[..|rows|])[i]
    {
      assert AppliedVersions(rows)[i] == Versions(discovered)[..|rows|][i];
      RowAfterAllCases(rows[i], discovered, digest);
    }
  }

  // ----- Applying migrations -----------------------------------------------------------------------

  datatype ApplyError = IncompatibleHistory(verdict: HistoryVerdict) | NotCommitted(version: int)

  /** The table after a run that validates its history and then commits at most `commits` migrations. */
  function AfterRun(rows: seq<Applied>, discovered: seq<Migration>, digest: Digest, commits: nat): (after: seq<Applied>)
    ensures |rows| <= |after|
  {
    NormalizedMetadataRowByRow(rows, discovered, digest);
    var normalized := NormalizedMetadata(rows, discovered, digest);
    if ValidateAppliedHistory(discovered, normalized, digest).Accepted? && |rows| + commits <= |discovered|
    then normalized + RecordedRows(discovered[|rows|..|rows| + commits])
    else normalized
  }

  /** The table schema_migrations, read in version order. */
  class SchemaMigrations {
    var rows: seq<Applied>

    constructor ()
      ensures rows == []
    {
      rows := [];
    }

    method NormalizeAppliedMigrationMetadata(discovered: seq<Migration>, digest: Digest)
      modifies this
      ensures rows == NormalizedMetadata(old(rows), discovered, digest)
    {
      for i := 0 to |discovered|
        invariant NormalizedMetadata(rows, discovered[i..], digest) == NormalizedMetadata(old(rows), discovered, digest)
      {
        assert discovered[i..][0] == discovered[i] && discovered[i..][1..] == discovered[i + 1..];
        rows := UpdateMatching(rows, discovered[i], digest);
      }
    }

    /**
     The loop over the discovered migrations. `commits(i)` says whether the transaction of the
     i-th one commits; when it does not, because its SQL fails or the process dies, the run ends there.
     */
    method CommitMissing(discovered: seq<Migration>, ghost digest: Digest, commits: nat -> bool)
        returns (result: Result<seq<int>, ApplyError>, newlyApplied: seq<int>)
      requires StrictlyIncreasing(discovered) && IsCompatiblePrefix(discovered, rows, digest)
      modifies this
      ensures |old(rows)| + |newlyApplied| <= |discovered|
      ensures rows == old(rows) + RecordedRows(discovered[|old(rows)|..|old(rows)| + |newlyApplied|])
      ensures newlyApplied == Versions(discovered)[|old(rows)|..|old(rows)| + |newlyApplied|]
      ensures IsOutcomeOf(result, newlyApplied, discovered, |rows|, commits)
    {
      newlyApplied := [];
      ghost var before, n := rows, |rows|;
      var appliedSet := VersionSet(rows);
      for i := 0 to |discovered|
        invariant |newlyApplied| == Committed(i, n)
        invariant rows == before + RecordedRows(discovered[n..n + Committed(i, n)])
        invariant newlyApplied == Versions(discovered)[n..n + Committed(i, n)]
      {
        SkippedIffInPrefix(discovered, before, digest, i);
        if discovered[i].version in appliedSet {
          continue;
        }
        if !commits(i) {
          return Err(NotCommitted(discovered[i].version)), newlyApplied;
        }
        RecordedRowsGrow(before, discovered, n, i);
        rows := rows + [Recorded(discovered[i])];
        newlyApplied := newlyApplied + [discovered[i].version];
      }
      result := Ok(newlyApplied);
    }

    method ApplyPendingMigrations(discovered: seq<Migration>, digest: Digest, commits: nat -> bool)
        returns (result: Result<seq<int>, ApplyError>, newlyApplied: seq<int>)
      requires StrictlyIncreasing(discovered)
      modifies this
      ensures rows == AfterRun(old(rows), discovered, digest, |newlyApplied|)
      ensures ValidateAppliedHistory(discovered, old(rows), digest).Accepted? ==>
                && |rows| <= |discovered|
                && newlyApplied == Versions(discovered)[|old(rows)|..|rows|]
                && IsOutcomeOf(result, newlyApplied, discovered, |rows|, commits)
      ensures !ValidateAppliedHistory(discovered, old(rows), digest).Accepted? ==>
                newlyApplied == [] && result == Err(IncompatibleHistory(ValidateAppliedHistory(discovered, old(rows), digest)))
    {
      MetadataRewriteKeepsVerdict(rows, discovered, digest);
      NormalizedMetadataRowByRow(rows, discovered, digest);
      NormalizeAppliedMigrationMetadata(discovered, digest);
      var verdict := ValidateAppliedHistory(discovered, rows, digest);
      if !verdict.Accepted? {
        return Err(IncompatibleHistory(verdict)), [];
      }
      AcceptedIffCompatiblePrefix(discovered, rows, digest);
      result, newlyApplied := CommitMissing(discovered, digest, commits);
    }
  }

  /** A run ends well once every discovered migration is recorded, and otherwise names the first that is not. */
  predicate IsOutcomeOf(result: Result<seq<int>, ApplyError>, newlyApplied: seq<int>,
                        discovered: seq<Migration>, recorded: nat, commits: nat -> bool) {
    if recorded < |discovered|
    then !commits(recorded) && result == Err(NotCommitted(discovered[recorded].version))
    else result == Ok(newlyApplied)
  }

  function VersionSet(rows: seq<Applied>): set<int> {
    set v | v in AppliedVersions(rows)
  }

  /** How many migrations have been committed once the first `i` have been looked at and `n` were there before. */
  function Committed(i: nat, n: nat): nat {
    if i <= n then 0 else i - n
  }

  lemma {:induction false} SkippedIffInPrefix(discovered: seq<Migration>, rows: seq<Applied>, digest: Digest, i: nat)
    requires StrictlyIncreasing(discovered) && IsCompatiblePrefix(discovered, rows, digest) && i < |discovered|
    ensures discovered[i].version in VersionSet(rows) <==> i < |rows|
  {
    var versions := AppliedVersions(rows);
    forall k | 0 <= k < |versions| ensures versions[k] == discovered[k].version {
      assert versions[k] == Versions(discovered)[..|rows|][k];
    }
    if i < |rows| {
      assert versions[i] in versions;
    }
  }

  lemma {:induction false} RecordedRowsGrow(before: seq<Applied>, discovered: seq<Migration>, n: nat, i: nat)
    requires n <= i < |discovered|
    ensures before + RecordedRows(discovered[n..i + 1]) == before + RecordedRows(discovered[n..i]) + [Recorded(discovered[i])]
    ensures Versions(discovered)[n..i + 1] == Versions(discovered)[n..i] + [discovered[i].version]
  {
    var longer, shorter := discovered[n..i + 1], discovered[n..i];
    forall k | 0 <= k < |longer| ensures RecordedRows(longer)[k] == (RecordedRows(shorter) + [Recorded(discovered[i])])[k] {
      assert longer[k] == discovered[n + k];
      assert k < i - n ==> shorter[k] == discovered[n + k];
    }
    assert RecordedRows(longer) == RecordedRows(shorter) + [Recorded(discovered[i])];
    ConcatIsAssociative(before, RecordedRows(shorter), [Recorded(discovered[i])]);
  }

  /** The canonical record of the first `n` migrations is an accepted history that the rewrite leaves alone. */
  lemma {:induction false} RecordedPrefixIsAccepted(discovered: seq<Migration>, digest: Digest, n: nat)
    requires StrictlyIncreasing(discovered) && n <= |discovered|
    ensures ValidateAppliedHistory(discovered, RecordedRows(discovered[..n]), digest).Accepted?
    ensures NormalizedMetadata(RecordedRows(discovered[..n]), discovered, digest) == RecordedRows(discovered[..n])
    ensures AppliedVersions(RecordedRows(discovered[..n])) == Versions(discovered)[..n]
  {
    var rows := RecordedRows(discovered[..n]);
    AcceptedIffCompatiblePrefix(discovered, rows, digest);
    AcceptedHistoryNormalForm(rows, discovered, digest);
  }

  /** From an accepted history, what a run commits is exactly the next migrations of the list. */
  lemma {:induction false} RunFromAcceptedHistory(rows: seq<Applied>, discovered: seq<Migration>, digest: Digest, commits: nat)
    requires StrictlyIncreasing(discovered)
    requires ValidateAppliedHistory(discovered, rows, digest).Accepted?
    requires |rows| + commits <= |discovered|
    ensures AfterRun(rows, discovered, digest, commits) == RecordedRows(discovered[..|rows| + commits])
  {
    MetadataRewriteKeepsVerdict(rows, discovered, digest);
    AcceptedHistoryNormalForm(rows, discovered, digest);
    assert discovered[..|rows| + commits] == discovered[..|rows|] + discovered[|rows|..|rows| + commits];
  }

  /** The table after several runs, each stopped after the given number of commits. */
  function AfterRuns(rows: seq<Applied>, discovered: seq<Migration>, digest: Digest, commits: seq<nat>): seq<Applied>
    decreases |commits|
  {
    if commits == [] then rows
    else AfterRuns(AfterRun(rows, discovered, digest, commits[0]), discovered, digest, commits[1..])
  }

  /** The versions whose SQL these runs executed, in order. */
  function ExecutedByRuns(rows: seq<Applied>, discovered: seq<Migration>, digest: Digest, commits: seq<nat>): seq<int>
    decreases |commits|
  {
    if commits == [] then []
    else
      var next := AfterRun(rows, discovered, digest, commits[0]);
      AppliedVersions(next)[|rows|..] + ExecutedByRuns(next, discovered, digest, commits[1..])
  }

  function Sum(commits: seq<nat>): nat {
    if commits == [] then 0 else commits[0] + Sum(commits[1..])
  }

  lemma {:induction false} TableAfterRestarts(discovered: seq<Migration>, digest: Digest, n: nat, commits: seq<nat>)
    requires StrictlyIncreasing(discovered) && n + Sum(commits) <= |discovered|
    ensures AfterRuns(RecordedRows(discovered[..n]), discovered, digest, commits) == RecordedRows(discovered[..n + Sum(commits)])
    decreases |commits|
  {
    if commits != [] {
      var m := n + commits[0];
      assert n + Sum(commits) == m + Sum(commits[1..]);
      RecordedPrefixIsAccepted(discovered, digest, n);
      RunFromAcceptedHistory(RecordedRows(discovered[..n]), discovered, digest, commits[0]);
      TableAfterRestarts(discovered, digest, m, commits[1..]);
    }
  }

  lemma {:induction false} SlicesMeet(s: seq<int>, prefix: seq<int>, a: nat, b: nat, c: nat)
    requires a <= b <= c <= |s| && prefix == s[..b]
    ensures prefix[a..] + s[b..c] == s[a..c]
  {
  }

  lemma {:induction false} ExecutedByRestarts(discovered: seq<Migration>, digest: Digest, n: nat, commits: seq<nat>)
    requires StrictlyIncreasing(discovered) && n + Sum(commits) <= |discovered|
    ensures ExecutedByRuns(RecordedRows(discovered[..n]), discovered, digest, commits)
         == Versions(discovered)[n..n + Sum(commits)]
    decreases |commits|
  {
    if commits != [] {
      var m, end := n + commits[0], n + Sum(commits);
      assert end == m + Sum(commits[1..]);
      var next := RecordedRows(discovered[..m]);
      RecordedPrefixIsAccepted(discovered, digest, n);
      RunFromAcceptedHistory(RecordedRows(discovered[..n]), discovered, digest, commits[0]);
      assert ExecutedByRuns(RecordedRows(discovered[..n]), discovered, digest, commits)
          == AppliedVersions(next)[n..] + ExecutedByRuns(next, discovered, digest, commits[1..]);
      ExecutedByRestarts(discovered, digest, m, commits[1..]);
      assert AppliedVersions(next) == Versions(discovered)[..m] by {
        RecordedPrefixIsAccepted(discovered, digest, m);
      }
      SlicesMeet(Versions(discovered), AppliedVersions(next), n, m, end);
    }
  }

  lemma {:induction false} RunsDependOnFirstRun(
      a: seq<Applied>, b: seq<Applied>, discovered: seq<Migration>, digest: Digest, commits: seq<nat>)
    requires commits != [] && |a| == |b|
    requires AfterRun(a, discovered, digest, commits[0]) == AfterRun(b, discovered, digest, commits[0])
    ensures AfterRuns(a, discovered, digest, commits) == AfterRuns(b, discovered, digest, commits)
    ensures ExecutedByRuns(a, discovered, digest, commits) == ExecutedByRuns(b, discovered, digest, commits)
  {
  }

  /** An accepted history and its canonical form of the same length are one and the same to every later run. */
  lemma {:induction false} RunsForgetLegacyMetadata(rows: seq<Applied>, discovered: seq<Migration>, digest: Digest, commits: seq<nat>)
    requires StrictlyIncreasing(discovered) && commits != []
    requires ValidateAppliedHistory(discovered, rows, digest).Accepted?
    requires |rows| + commits[0] <= |discovered|
    ensures AfterRuns(rows, discovered, digest, commits)
         == AfterRuns(RecordedRows(discovered[..|rows|]), discovered, digest, commits)
    ensures ExecutedByRuns(rows, discovered, digest, commits)
         == ExecutedByRuns(RecordedRows(discovered[..|rows|]), discovered, digest, commits)
  {
    var canonical := RecordedRows(discovered[..|rows|]);
    RunFromAcceptedHistory(rows, discovered, digest, commits[0]);
    RecordedPrefixIsAccepted(discovered, digest, |rows|);
    RunFromAcceptedHistory(canonical, discovered, digest, commits[0]);
    RunsDependOnFirstRun(rows, canonical, discovered, digest, commits);
  }

  /**
   However often the runs are interrupted and started again, the migrations executed are the
   missing ones, each once and in order, and the table records them as one run would have.
   */
  lemma {:induction false} RestartsApplyEachMigrationOnce(
      rows: seq<Applied>, discovered: seq<Migration>, digest: Digest, commits: seq<nat>)
    requires StrictlyIncreasing(discovered)
    requires ValidateAppliedHistory(discovered, rows, digest).Accepted?
    requires |rows| + Sum(commits) <= |discovered| && commits != []
    ensures AfterRuns(rows, discovered, digest, commits) == RecordedRows(discovered[..|rows| + Sum(commits)])
    ensures ExecutedByRuns(rows, discovered, digest, commits) == Versions(discovered)[|rows|..|rows| + Sum(commits)]
  {
    RunsForgetLegacyMetadata(rows, discovered, digest, commits);
    TableAfterRestarts(discovered, digest, |rows|, commits);
    ExecutedByRestarts(discovered, digest, |rows|, commits);
  }

  // ----- Upgrade assessment ---------------------------------------------------------------------------

  datatype SchemaPolicy = SchemaPolicy(minimumSupported: int, expected: int)

  datatype SchemaCompatibility =
    | Supported(current: int)
    | Missing
    | TooOld(current: int, minimumSupported: int)
    | PendingMigrations(current: int, expected: int)
    | TooNew(current: int, expected: int)
    | Incompatible(verdict: HistoryVerdict)

  datatype Assessment = Assessment(
    currentVersion: Option<int>,
    appliedVersions: seq<int>,
    pendingVersions: seq<int>,
    compatibility: SchemaCompatibility)

  function Evaluate(current: Option<int>, policy: SchemaPolicy): SchemaCompatibility {
    match current
    case None => Missing
    case Some(v) =>
      if v < policy.minimumSupported then TooOld(v, policy.minimumSupported)
      else if v < policy.expected then PendingMigrations(v, policy.expected)
      else if v > policy.expected then TooNew(v, policy.expected)
      else Supported(v)
  }

  function NewerThan(versions: seq<int>, current: Option<int>): seq<int> {
    if versions == [] then []
    else (if current.None? || versions[0] > current.value then [versions[0]] else []) + NewerThan(versions[1..], current)
  }

  /** The assessment of a table whose metadata has been rewritten. */
  function Assess(rows: seq<Applied>, discovered: seq<Migration>, digest: Digest, policy: SchemaPolicy): Assessment {
    var applied := NormalizedMetadata(rows, discovered, digest);
    var current := if applied == [] then None else Some(applied[|applied| - 1].version);
    var verdict := ValidateAppliedHistory(discovered, applied, digest);
    Assessment(
      current,
      AppliedVersions(applied),
      NewerThan(Versions(discovered), current),
      if verdict.Accepted? then Evaluate(current, policy) else Incompatible(verdict))
  }

  lemma {:induction false} NewerThanNone(versions: seq<int>)
    ensures NewerThan(versions, None) == versions
  {
    if versions != [] {
      NewerThanNone(versions[1..]);
    }
  }

  lemma {:induction false} NewerThanSplits(versions: seq<int>, n: nat, current: int)
    requires n <= |versions|
    requires forall i | 0 <= i < n :: versions[i] <= current
    requires forall i | n <= i < |versions| :: versions[i] > current
    ensures NewerThan(versions, Some(current)) == versions[n..]
  {
    if versions != [] {
      if n > 0 {
        NewerThanSplits(versions[1..], n - 1, current);
        assert versions[1..][n - 1..] == versions[n..];
      } else {
        NewerThanSplits(versions[1..], 0, current);
        assert versions[0] > current;
        assert versions == [versions[0]] + versions[1..];
      }
    }
  }

  lemma {:induction false} PendingOfPrefix(discovered: seq<Migration>, n: nat)
    requires StrictlyIncreasing(discovered) && n <= |discovered|
    ensures NewerThan(Versions(discovered), if n == 0 then None else Some(discovered[n - 1].version)) == Versions(discovered)[n..]
  {
    var versions := Versions(discovered);
    if n == 0 {
      NewerThanNone(versions);
    } else {
      NewerThanSplits(versions, n, versions[n - 1]);
    }
  }

  /** The assessment of an accepted history, and that it reports as pending exactly what a full run executes. */
  lemma {:induction false} PendingVersionsAreWhatARunApplies(
      rows: seq<Applied>, discovered: seq<Migration>, digest: Digest, policy: SchemaPolicy)
    requires StrictlyIncreasing(discovered)
    requires ValidateAppliedHistory(discovered, rows, digest).Accepted?
    ensures |rows| <= |discovered|
    ensures Assess(rows, discovered, digest, policy).pendingVersions == Versions(discovered)[|rows|..]
    ensures ExecutedByRuns(rows, discovered, digest, [|discovered| - |rows|]) == Versions(discovered)[|rows|..]
  {
    AcceptedHistoryNormalForm(rows, discovered, digest);
    PendingOfPrefix(discovered, |rows|);
    SumOfOne(|discovered| - |rows|);
    RestartsApplyEachMigrationOnce(rows, discovered, digest, [|discovered| - |rows|]);
  }

  /** The assessment of every history: what is missing, too old, pending, too new or supported, and what is incompatible. */
  lemma {:induction false} AssessmentTellsTheState(
      rows: seq<Applied>, discovered: seq<Migration>, digest: Digest, policy: SchemaPolicy)
    requires StrictlyIncreasing(discovered)
    ensures var verdict := ValidateAppliedHistory(discovered, rows, digest);
            var assessment := Assess(rows, discovered, digest, policy);
            && assessment.appliedVersions == AppliedVersions(rows)
            && assessment.currentVersion == (if rows == [] then None else Some(rows[|rows| - 1].version))
            && (!verdict.Accepted? ==> assessment.compatibility == Incompatible(verdict))
            && (verdict.Accepted? && rows == [] ==> assessment.compatibility.Missing?)
            && (verdict.Accepted? && rows != [] ==>
                  var current, c := rows[|rows| - 1].version, assessment.compatibility;
                  && (current < policy.minimumSupported <==> c == TooOld(current, policy.minimumSupported))
                  && (policy.minimumSupported <= current < policy.expected <==> c == PendingMigrations(current, policy.expected))
                  && (policy.minimumSupported <= current && policy.expected < current <==> c == TooNew(current, policy.expected))
                  && (policy.minimumSupported <= current == policy.expected <==> c == Supported(current)))
  {
    MetadataRewriteKeepsVerdict(rows, discovered, digest);
  }

  lemma {:induction false} SumOfOne(n: nat)
    ensures Sum([n]) == n
  {
    assert [n][1..] == [];
  }

  lemma {:induction false} CompleteTableIsSupported(rows: seq<Applied>, discovered: seq<Migration>, digest: Digest, policy: SchemaPolicy)
    requires StrictlyIncreasing(discovered) && discovered != [] && rows == RecordedRows(discovered[..|discovered|])
    requires policy.expected == discovered[|discovered| - 1].version && policy.minimumSupported <= policy.expected
    ensures Assess(rows, discovered, digest, policy)
         == Assessment(Some(policy.expected), Versions(discovered), [], Supported(policy.expected))
  {
    RecordedPrefixIsAccepted(discovered, digest, |discovered|);
    PendingOfPrefix(discovered, |discovered|);
    assert Versions(discovered)[..|discovered|] == Versions(discovered);
  }

  /** After the last missing migration has been committed, nothing is pending and the schema is supported. */
  lemma {:induction false} FullRunsEndSupported(
      rows: seq<Applied>, discovered: seq<Migration>, digest: Digest, commits: seq<nat>, policy: SchemaPolicy)
    requires StrictlyIncreasing(discovered) && discovered != []
    requires ValidateAppliedHistory(discovered, rows, digest).Accepted?
    requires commits != [] && |rows| + Sum(commits) == |discovered|
    requires policy.expected == discovered[|discovered| - 1].version && policy.minimumSupported <= policy.expected
    ensures Assess(AfterRuns(rows, discovered, digest, commits), discovered, digest, policy)
         == Assessment(Some(policy.expected), Versions(discovered), [], Supported(policy.expected))
  {
    RestartsApplyEachMigrationOnce(rows, discovered, digest, commits);
    CompleteTableIsSupported(AfterRuns(rows, discovered, digest, commits), discovered, digest, policy);
  }
}
