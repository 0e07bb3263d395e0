/** What the files of one recording are called, and when two recordings share one. */
module Names {
  import opened Numerals

  datatype FileKind = Qmdl | Analysis | Gps | Meta

  const ALL_KINDS: seq<FileKind> := [Qmdl, Analysis, Gps, Meta]

  function FileName(kind: FileKind, name: string, compressed: bool): string {
    match kind
    case Qmdl => if compressed then name + ".qmdl.gz" else name + ".qmdl"
    case Analysis => name + ".ndjson"
    case Gps => name + "-gps.ndjson"
    case Meta => name + "-meta.json"
  }

  /** "<unix-seconds>-<sequence>" */
  function EntryName(seconds: int, sequence: nat): string {
    ShowInt(seconds) + "-" + ShowNat(sequence)
  }

  predicate EndsWith(s: string, suffix: string) {
    |suffix| <= |s| && s[|s| - |suffix|..] == suffix
  }

  /** A file that holds the capture itself, compressed or not. */
  predicate IsCapture(file: string) {
    EndsWith(file, ".qmdl") || EndsWith(file, ".qmdl.gz")
  }

  predicate IsReport(file: string) { EndsWith(file, ".ndjson") }

  lemma EndsWithSuffix(s: string, suffix: string)
    ensures EndsWith(s + suffix, suffix)
    ensures (s + suffix)[..|s|] == s
  {
    assert (s + suffix)[|s|..] == suffix;
  }

  lemma SuffixDetermines(a: string, b: string, suffix: string)
    requires a + suffix == b + suffix
    ensures a == b
  {
    assert (a + suffix)[..|a|] == a;
    assert (b + suffix)[..|b|] == b;
  }

  lemma LastCharacter(kind: FileKind, name: string, compressed: bool)
    ensures var f := FileName(kind, name, compressed);
            f != "" && f[|f| - 1] == (if kind != Qmdl then 'n' else if compressed then 'z' else 'l')
  {
  }

  /** Exactly the capture kind is written to a capture file. */
  lemma CaptureFiles(kind: FileKind, name: string, compressed: bool)
    ensures IsCapture(FileName(kind, name, compressed)) <==> kind == Qmdl
  {
    var f := FileName(kind, name, compressed);
    LastCharacter(kind, name, compressed);
    if kind == Qmdl {
      EndsWithSuffix(name, if compressed then ".qmdl.gz" else ".qmdl");
    } else {
      assert forall suffix :: EndsWith(f, suffix) && suffix != "" ==> f[|f| - 1] == suffix[|suffix| - 1];
    }
  }

  lemma NotAReport(kind: FileKind, name: string, compressed: bool)
    requires kind == Qmdl || kind == Meta
    ensures !IsReport(FileName(kind, name, compressed))
  {
    var f := FileName(kind, name, compressed);
    LastCharacter(kind, name, compressed);
    if |f| >= 7 {
      var tail := f[|f| - 7..];
      assert tail[6] == f[|f| - 1] && tail[2] == f[|f| - 5];
    }
  }

  lemma EndsLikeItsSuffix(file: string, suffix: string)
    requires EndsWith(file, suffix) && suffix != ""
    ensures file[|file| - 1] == suffix[|suffix| - 1]
  {
    assert file[|file| - |suffix|..][|suffix| - 1] == file[|file| - 1];
  }

  lemma ReportsAreNoCaptures(file: string)
    requires IsReport(file)
    ensures !IsCapture(file)
  {
    EndsLikeItsSuffix(file, ".ndjson");
    if EndsWith(file, ".qmdl") {
      EndsLikeItsSuffix(file, ".qmdl");
    }
    if EndsWith(file, ".qmdl.gz") {
      EndsLikeItsSuffix(file, ".qmdl.gz");
    }
  }

  /** Two recordings have the same capture file only when both name and compression agree. */
  lemma CaptureNameInjective(n1: string, c1: bool, n2: string, c2: bool)
    requires FileName(Qmdl, n1, c1) == FileName(Qmdl, n2, c2)
    ensures n1 == n2 && c1 == c2
  {
    LastCharacter(Qmdl, n1, c1);
    LastCharacter(Qmdl, n2, c2);
    SuffixDetermines(n1, n2, if c1 then ".qmdl.gz" else ".qmdl");
  }

  /** No file of one recording is also a file of the other. */
  ghost predicate FilesDisjoint(n1: string, c1: bool, n2: string, c2: bool) {
    forall k1, k2 :: FileName(k1, n1, c1) != FileName(k2, n2, c2)
  }

  /** Of two recordings with different names, the files are disjoint unless one is
      called like the other's position file without its ".ndjson". */
  lemma DisjointUnlessNamedLikeGps(n1: string, c1: bool, n2: string, c2: bool)
    requires n1 != n2
    ensures FilesDisjoint(n1, c1, n2, c2) <==> n1 != n2 + "-gps" && n2 != n1 + "-gps"
  {
    if n1 == n2 + "-gps" {
      assert n2 + "-gps" + ".ndjson" == n2 + "-gps.ndjson";
      assert FileName(Analysis, n1, c1) == FileName(Gps, n2, c2);
    } else if n2 == n1 + "-gps" {
      assert n1 + "-gps" + ".ndjson" == n1 + "-gps.ndjson";
      assert FileName(Gps, n1, c1) == FileName(Analysis, n2, c2);
    } else {
      forall k1, k2 ensures FileName(k1, n1, c1) != FileName(k2, n2, c2) {
        if FileName(k1, n1, c1) == FileName(k2, n2, c2) {
          SharedFileName(k1, n1, c1, k2, n2, c2);
        }
      }
    }
  }

  lemma SharedFileName(k1: FileKind, n1: string, c1: bool, k2: FileKind, n2: string, c2: bool)
    requires FileName(k1, n1, c1) == FileName(k2, n2, c2)
    ensures n1 == n2 || n1 == n2 + "-gps" || n2 == n1 + "-gps"
  {
    LastCharacter(k1, n1, c1);
    LastCharacter(k2, n2, c2);
    if k1 == k2 {
      var suffix := FileName(k1, "", c1);
      assert FileName(k1, n1, c1) == n1 + suffix && FileName(k2, n2, c2) == n2 + suffix;
      SuffixDetermines(n1, n2, suffix);
    } else {
      var f := FileName(k1, n1, c1);
      assert k1 != Meta && k2 != Meta by {
        // ".json" and "djson" differ five characters from the end.
        assert f[|f| - 5] == (if k1 == Meta then '.' else 'd');
        assert f[|f| - 5] == (if k2 == Meta then '.' else 'd');
      }
      if k1 == Analysis {
        SuffixDetermines(n1, n2 + "-gps", ".ndjson");
      } else {
        SuffixDetermines(n2, n1 + "-gps", ".ndjson");
      }
    }
  }

  /** A name the store prints ends in a digit, so it is never called like a position file. */
  lemma PrintedNamesAreSeparate(seconds: int, sequence: nat, other: string)
    ensures EntryName(seconds, sequence) != other + "-gps"
  {
    var name, digits := EntryName(seconds, sequence), ShowNat(sequence);
    assert name[|name| - 1] == digits[|digits| - 1];
    assert digits[|digits| - 1] in digits;
  }

  /** Different sequence numbers give different names, whatever the clock says. */
  lemma SequenceDistinguishes(s1: int, q1: nat, s2: int, q2: nat)
    requires EntryName(s1, q1) == EntryName(s2, q2)
    ensures s1 == s2 && q1 == q2
  {
    AfterLastHyphen(ShowInt(s1), ShowNat(q1));
    AfterLastHyphen(ShowInt(s2), ShowNat(q2));
    ShowNatInjective(q1, q2);
    ShowIntInjective(s1, s2);
  }

  function LastHyphen(s: string): int {
    if s == "" then -1
    else if s[|s| - 1] == '-' then |s| - 1
    else LastHyphen(s[..|s| - 1])
  }

  lemma {:induction false} AfterLastHyphen(head: string, digits: string)
    requires AllDigits(digits)
    ensures var s := head + "-" + digits;
            LastHyphen(s) == |head| && s[..|head|] == head && s[|head| + 1..] == digits
  {
    var s := head + "-" + digits;
    if digits != "" {
      var rest := digits[..|digits| - 1];
      assert s[..|s| - 1] == head + "-" + rest;
      assert s[|s| - 1] == digits[|digits| - 1] && digits[|digits| - 1] in digits;
      AfterLastHyphen(head, rest);
    }
  }

  lemma ShowIntSign(n: int)
    ensures ShowInt(n)[0] == '-' <==> n < 0
  {
    if n >= 0 {
      assert ShowNat(n)[0] in ShowNat(n);
    }
  }

  lemma ShowIntInjective(a: int, b: int)
    requires ShowInt(a) == ShowInt(b)
    ensures a == b
  {
    ShowIntSign(a);
    ShowIntSign(b);
    if a < 0 {
      assert ShowInt(a)[1..] == ShowNat(-a) && ShowInt(b)[1..] == ShowNat(-b);
      ShowNatInjective(-a, -b);
    } else {
      ShowNatInjective(a, b);
    }
  }
}
