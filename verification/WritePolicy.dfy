/** Who writes a target, with which attributes, and what that conserves. */
module WritePolicy {
  import opened Basics

  /** Ownership and mode as stat prints them. */
  datatype FileInfo = FileInfo(exists_: bool, isSymlink: bool, uid: string, gid: string, mode: string)

  datatype WriteOpts = WriteOpts(uid: string, gid: string, mode: string, mkdirFor: bool, runAs: User)

  datatype WriteTarget = WriteTarget(
    guardIsRoot: bool, guardUser: User,
    entryUser: User, entryUID: string, entryGID: string,
    file: FileInfo, dir: FileInfo)

  // ---------------------------------------------------------------- modes

  function DigitValue(c: char): int {
    c as int - '0' as int
  }

  predicate OctalDigits(s: string) {
    forall i | 0 <= i < |s| :: 0 <= DigitValue(s[i]) < 8
  }

  function OctalValue(s: string): (v: int)
    requires OctalDigits(s)
    ensures v >= 0
  {
    if s == "" then 0 else 8 * OctalValue(s[..|s| - 1]) + DigitValue(s[|s| - 1])
  }

  /** strconv.ParseUint(s, 8, 32): None is a syntax or range error. */
  function ParseOctal(s: string): Option<int> {
    if s != "" && OctalDigits(s) && OctalValue(s) < 0x1_0000_0000 then Some(OctalValue(s)) else None
  }

  /** Bit k of a number, counting from the low end. */
  predicate Bit(v: int, k: nat)
    requires v >= 0
  {
    if k == 0 then v % 2 == 1 else Bit(v / 2, k - 1)
  }

  /** Mask 0o022 is bits 1 and 4; a mode that does not parse is unsafe. */
  predicate DirWritableByOthers(mode: string) {
    match ParseOctal(mode)
    case None => true
    case Some(v) => Bit(v, 1) || Bit(v, 4)
  }

  /** One permission digit grants write. */
  predicate WriteDigit(c: char) {
    c == '2' || c == '3' || c == '6' || c == '7'
  }

  /** For every parseable mode the bit test is a test of the last two octal digits. */
  lemma WritableIsLastTwoDigits(mode: string)
    requires ParseOctal(mode).Some?
    ensures DirWritableByOthers(mode)
       <==> WriteDigit(mode[|mode| - 1]) || (|mode| >= 2 && WriteDigit(mode[|mode| - 2]))
  {
    var v := OctalValue(mode);
    var last := mode[|mode| - 1];
    var front := mode[..|mode| - 1];
    LowDigitBit(OctalValue(front), last);
    HighDigitBit(OctalValue(front), DigitValue(last));
    if |mode| >= 2 {
      var next := front[|front| - 1];
      assert next == mode[|mode| - 2];
      LowDigitBit(OctalValue(front[..|front| - 1]), next);
    }
  }

  lemma LowDigitBit(high: int, c: char)
    requires high >= 0 && 0 <= DigitValue(c) < 8
    ensures Bit(8 * high + DigitValue(c), 1) <==> WriteDigit(c)
  {
    var d := DigitValue(c);
    var half := (8 * high + d) / 2;
    assert half == 4 * high + d / 2;
    assert Bit(8 * high + d, 1) == Bit(half, 0);
    assert half % 2 == d / 2 % 2;
    assert WriteDigit(c) <==> d == 2 || d == 3 || d == 6 || d == 7;
  }

  lemma HighDigitBit(high: int, d: int)
    requires high >= 0 && 0 <= d < 8
    ensures Bit(8 * high + d, 4) <==> Bit(high, 1)
  {
    var v := 8 * high + d;
    assert v / 2 == 4 * high + d / 2;
    assert v / 2 / 2 == 2 * high + d / 4;
    assert v / 2 / 2 / 2 == high;
    assert Bit(v, 4) == Bit(v / 2, 3) == Bit(v / 2 / 2, 2) == Bit(v / 2 / 2 / 2, 1);
  }

  // ------------------------------------------------------------- decision

  /** Root owns the directory and nobody else can write into it. */
  predicate RootManaged(dir: FileInfo) {
    dir.exists_ && dir.uid == "0" && !DirWritableByOthers(dir.mode)
  }

  /** Spelled out: the directory is there and root's, its mode is an octal number, and neither of the last two digits
      lets anybody else write. */
  ghost predicate OnlyRootWrites(dir: FileInfo) {
    && dir.exists_ && dir.uid == "0" && ParseOctal(dir.mode).Some?
    && dir.mode[|dir.mode| - 1] !in {'2', '3', '6', '7'}
    && (|dir.mode| >= 2 ==> dir.mode[|dir.mode| - 2] !in {'2', '3', '6', '7'})
  }

  lemma RootManagedExactly(dir: FileInfo)
    ensures RootManaged(dir) <==> OnlyRootWrites(dir)
  {
    if ParseOctal(dir.mode).Some? {
      WritableIsLastTwoDigits(dir.mode);
    }
  }

  /** A digit followed by n zeros, in octal. */
  function Lead(d: int, n: nat): int {
    if n == 0 then d else 8 * Lead(d, n - 1)
  }

  lemma {:induction false} LeadGrows(d: int, e: int, m: nat, n: nat)
    requires 0 <= d <= e && m <= n
    ensures 0 <= Lead(d, m) <= Lead(e, n)
  {
    if m > 0 {
      LeadGrows(d, e, m - 1, n - 1);
    } else if n > 0 {
      LeadGrows(d, e, 0, n - 1);
    }
  }

  /** The first digit settles the magnitude. */
  lemma {:induction false} Magnitude(s: string)
    requires s != "" && OctalDigits(s)
    ensures Lead(DigitValue(s[0]), |s| - 1) <= OctalValue(s) < Lead(DigitValue(s[0]) + 1, |s| - 1)
  {
    var front := s[..|s| - 1];
    if front == "" {
      assert OctalValue(front) == 0;
    } else {
      Magnitude(front);
    }
  }

  lemma {:induction false} LeadingZeros(zeros: string, rest: string)
    requires OctalDigits(rest) && forall i | 0 <= i < |zeros| :: zeros[i] == '0'
    ensures OctalDigits(zeros + rest) && OctalValue(zeros + rest) == OctalValue(rest)
  {
    var s := zeros + rest;
    if rest != "" {
      assert s[..|s| - 1] == zeros + rest[..|rest| - 1];
      LeadingZeros(zeros, rest[..|rest| - 1]);
    } else if zeros != "" {
      assert s == zeros && s[..|s| - 1] == zeros[..|zeros| - 1] + "";
      LeadingZeros(zeros[..|zeros| - 1], "");
    } else {
      assert s == "";
    }
  }

  lemma Magnitudes()
    ensures Lead(1, 11) >= 0x1_0000_0000 && Lead(4, 10) == 0x1_0000_0000 && Lead(8, 9) <= 0x1_0000_0000
  {
    assert Lead(1, 3) == 512 && Lead(4, 3) == 2048 && Lead(8, 3) == 4096;
    assert Lead(1, 6) == 512 * 512 && Lead(4, 6) == 2048 * 512 && Lead(8, 6) == 4096 * 512;
    assert Lead(1, 9) == 134217728 && Lead(4, 9) == 536870912 && Lead(8, 9) == 1073741824;
  }

  lemma FitsExactly(rest: string)
    requires OctalDigits(rest) && (rest != "" ==> rest[0] != '0')
    ensures OctalValue(rest) < 0x1_0000_0000 <==> |rest| <= 10 || (|rest| == 11 && rest[0] in "123")
  {
    hide Lead;
    if rest != "" {
      var d := DigitValue(rest[0]);
      Magnitude(rest);
      Magnitudes();
      if |rest| <= 10 {
        LeadGrows(d + 1, 8, |rest| - 1, 9);
      } else if |rest| == 11 && d <= 3 {
        LeadGrows(d + 1, 4, 10, 10);
      } else if |rest| == 11 {
        LeadGrows(4, d, 10, 10);
      } else {
        LeadGrows(1, d, 11, |rest| - 1);
      }
    }
  }

  /** Which modes parse: octal digits, and leading zeros aside not more of them than 32 bits hold. */
  lemma ParsesExactly(zeros: string, rest: string)
    requires (forall i | 0 <= i < |zeros| :: zeros[i] == '0') && (rest != "" ==> rest[0] != '0')
    ensures ParseOctal(zeros + rest).Some?
       <==> && zeros + rest != "" && (forall i | 0 <= i < |rest| :: '0' <= rest[i] <= '7')
            && (|rest| <= 10 || (|rest| == 11 && rest[0] in "123"))
  {
    hide OctalValue;
    if forall i | 0 <= i < |rest| :: '0' <= rest[i] <= '7' {
      LeadingZeros(zeros, rest);
      FitsExactly(rest);
    } else {
      var i :| 0 <= i < |rest| && !('0' <= rest[i] <= '7');
      assert (zeros + rest)[|zeros| + i] == rest[i];
    }
  }

  /** True when the target may be written; false is the ownership-handover refusal. */
  predicate CheckWriteTarget(t: WriteTarget) {
    if !t.guardIsRoot || t.entryUser == t.guardUser || !t.file.exists_ then true
    else if RootManaged(t.dir) then true
    else !(t.file.uid != "" && t.file.uid != t.entryUID)
  }

  function DecideWriteOpts(t: WriteTarget): WriteOpts {
    var base := if t.file.exists_ then WriteOpts("", "", t.file.mode, false, "")
                else WriteOpts("", "", "600", true, "");
    if !t.guardIsRoot then base
    else if t.entryUser != t.guardUser && !RootManaged(t.dir) then base.(runAs := t.entryUser)
    else if t.file.exists_ then base.(uid := t.file.uid, gid := t.file.gid)
    else base.(uid := t.entryUID, gid := t.entryGID)
  }

  // --------------------------------------------------------------- effect

  /** What a file on disk carries besides content. */
  datatype Meta = Meta(uid: string, gid: string, mode: string)

  /** A login's numeric identity. */
  datatype Login = Login(uid: string, gid: string)

  /** The attributes SwapFile leaves: mktemp by the writer, chmod, and chown when asked for. */
  function SwapMeta(opts: WriteOpts, guard: Login, dropped: Login): Meta {
    var writer := if opts.runAs != "" then dropped else guard;
    var mode := if opts.mode == "" then "600" else opts.mode;
    if opts.uid != "" && opts.runAs == "" then Meta(opts.uid, opts.gid, mode) else Meta(writer.uid, writer.gid, mode)
  }

  /** The stamp every swap and every revert of one target leaves. */
  function Stamp(t: WriteTarget, guard: Login): Meta {
    SwapMeta(DecideWriteOpts(t), guard, Login(t.entryUID, t.entryGID))
  }

  /** stat and id print numbers. */
  ghost predicate Measured(t: WriteTarget) {
    && t.entryUser != "" && t.entryUID != ""
    && (t.file.exists_ ==> t.file.uid != "" && t.file.mode != "")
  }

  /** A root guard never changes an existing file's owner or mode. */
  lemma OwnershipConserved(t: WriteTarget, guard: Login)
    requires t.guardIsRoot && CheckWriteTarget(t) && Measured(t) && t.file.exists_
    ensures Stamp(t, guard).uid == t.file.uid && Stamp(t, guard).mode == t.file.mode
  {
  }

  /** A created file belongs to the entry user and nobody else can read it. */
  lemma CreatedBelongsToEntryUser(t: WriteTarget, guard: Login)
    requires t.guardIsRoot && CheckWriteTarget(t) && Measured(t) && !t.file.exists_
    ensures Stamp(t, guard) == Meta(t.entryUID, t.entryGID, "600")
  {
  }

  /** The group survives exactly when the write is not dropped or the file had the user's own group. */
  lemma GroupConservedExactly(t: WriteTarget, guard: Login)
    requires t.guardIsRoot && CheckWriteTarget(t) && Measured(t) && t.file.exists_
    ensures Stamp(t, guard).gid == t.file.gid
       <==> t.entryUser == t.guardUser || OnlyRootWrites(t.dir) || t.file.gid == t.entryGID
  {
    RootManagedExactly(t.dir);
  }

  /** A secondary group is lost by a dropped write. */
  lemma DroppedWriteLosesGroup()
    ensures exists t: WriteTarget, guard: Login ::
              && t.guardIsRoot && CheckWriteTarget(t) && Measured(t) && t.file.exists_
              && Stamp(t, guard).gid != t.file.gid
  {
    var file := FileInfo(true, false, "1000", "4", "640");
    var dir := FileInfo(true, false, "1000", "1000", "700");
    var t := WriteTarget(true, "root", "alice", "1000", "1000", file, dir);
    assert Stamp(t, Login("0", "0")) == Meta("1000", "1000", "640");
    assert t.guardIsRoot && CheckWriteTarget(t) && Measured(t) && t.file.exists_;
  }

  /** The privilege rule, both ways round, and never a drop together with a chown. */
  lemma PrivilegeRule(t: WriteTarget)
    requires t.guardIsRoot && t.entryUser != ""
    ensures var o := DecideWriteOpts(t);
            && (o.runAs == ""
                <==> t.entryUser == t.guardUser
                     || (t.dir.exists_ && t.dir.uid == "0" && ParseOctal(t.dir.mode).Some?
                         && t.dir.mode[|t.dir.mode| - 1] !in {'2', '3', '6', '7'}
                         && (|t.dir.mode| >= 2 ==> t.dir.mode[|t.dir.mode| - 2] !in {'2', '3', '6', '7'})))
            && (o.runAs != "" ==> o.runAs == t.entryUser && o.uid == "" && o.gid == "")
  {
    RootManagedExactly(t.dir);
  }

  /** What is refused: somebody else's existing file, for a root guard acting for another user, in a directory that
      is not root's alone to write. */
  lemma RefusedExactly(t: WriteTarget)
    ensures !CheckWriteTarget(t)
       <==> t.guardIsRoot && t.entryUser != t.guardUser
            && t.file.exists_ && t.file.uid != "" && t.file.uid != t.entryUID
            && !(t.dir.exists_ && t.dir.uid == "0" && ParseOctal(t.dir.mode).Some?
                 && t.dir.mode[|t.dir.mode| - 1] !in {'2', '3', '6', '7'}
                 && (|t.dir.mode| >= 2 ==> t.dir.mode[|t.dir.mode| - 2] !in {'2', '3', '6', '7'}))
  {
    RootManagedExactly(t.dir);
  }

  /** The parent directory is made exactly for a file that is not there. */
  lemma MkdirExactly(t: WriteTarget)
    ensures DecideWriteOpts(t).mkdirFor <==> !t.file.exists_
  {
  }

  /** An unprivileged guard neither drops nor chowns. */
  lemma UnprivilegedGuardWritesAsItself(t: WriteTarget, guard: Login)
    requires !t.guardIsRoot
    ensures Stamp(t, guard).uid == guard.uid && Stamp(t, guard).gid == guard.gid
  {
  }

  /** Exactly the refused combination: dropping would hand the file over to the entry user. */
  lemma RefusedExactlyHandover(t: WriteTarget, guard: Login)
    requires Measured(t) && t.guardIsRoot && t.file.exists_
    ensures !CheckWriteTarget(t) <==> Stamp(t, guard).uid != t.file.uid
  {
  }

  // -------------------------------------------------------- restore's form

  /** `restore` asks with no entry uid: then a user's own file in the user's own directory is refused. */
  lemma RestoreRefusesExactly(t: WriteTarget)
    requires t.entryUID == ""
    ensures !CheckWriteTarget(t)
       <==> t.guardIsRoot && t.entryUser != t.guardUser && t.file.exists_
            && t.file.uid != "" && !OnlyRootWrites(t.dir)
  {
    RootManagedExactly(t.dir);
  }

  /** The same target is accepted by `apply` and refused by `restore`. */
  lemma RestoreRefusesOwnFile()
    ensures exists t: WriteTarget ::
              CheckWriteTarget(t) && t.file.uid == t.entryUID && !CheckWriteTarget(t.(entryUID := ""))
  {
    var file := FileInfo(true, false, "1000", "1000", "600");
    var dir := FileInfo(true, false, "1000", "1000", "700");
    var t := WriteTarget(true, "root", "alice", "1000", "1000", file, dir);
    assert dir.uid != "0";
    assert CheckWriteTarget(t) && !CheckWriteTarget(t.(entryUID := ""));
  }
}
