/** The index format that the Compose cache producer writes and the importer checks. */
module ComposeCaches {

  datatype CacheEntry = CacheEntry(image: string, archive: string, sha256: string)

  type Index = map<string, CacheEntry>

  const TAG_PREFIX: string := "gondolin-preload:"

  predicate IsHex(s: string) {
    forall i :: 0 <= i < |s| ==> '0' <= s[i] <= '9' || 'a' <= s[i] <= 'f'
  }

  function Repeat(c: char, n: nat): string {
    if n == 0 then "" else Repeat(c, n - 1) + [c]
  }

  lemma {:induction false} RepeatIsHex(c: char, n: nat)
    requires '0' <= c <= '9'
    ensures |Repeat(c, n)| == n && IsHex(Repeat(c, n))
    ensures n > 0 ==> Repeat(c, n)[0] == c
  {
    if n > 0 { RepeatIsHex(c, n - 1); }
  }

  /** 24 hexadecimal digits and `.tar`. */
  predicate IsArchiveName(s: string) {
    |s| == 28 && IsHex(s[..24]) && s[24..] == ".tar"
  }

  predicate IsDigest(s: string) {
    |s| == 64 && IsHex(s)
  }

  predicate EntryOk(service: string, e: CacheEntry) {
    service != "" && IsArchiveName(e.archive) && IsDigest(e.sha256) && e.image == TAG_PREFIX + e.archive[..24]
  }

  predicate EntriesOk(index: Index) {
    forall service | service in index :: EntryOk(service, index[service])
  }

  /** So many digits of lower-case hexadecimal. */
  predicate AreDigits(s: string, n: nat) {
    |s| == n && forall i | 0 <= i < n :: s[i] in "0123456789abcdef"
  }

  /** An entry names a service, an archive and a tag made of the same 24 digits, and a checksum of 64. */
  lemma EntryMeans(service: string, e: CacheEntry)
    ensures EntryOk(service, e)
      <==> && service != "" && AreDigits(e.sha256, 64)
           && exists digits :: AreDigits(digits, 24) && e.archive == digits + ".tar"
                               && e.image == "gondolin-preload:" + digits
  {
    HexAreDigits(e.sha256);
    if EntryOk(service, e) {
      HexAreDigits(e.archive[..24]);
      assert e.archive == e.archive[..24] + ".tar";
    }
    if digits :| AreDigits(digits, 24) && e.archive == digits + ".tar" && e.image == "gondolin-preload:" + digits {
      HexAreDigits(digits);
      assert e.archive[..24] == digits && e.archive[24..] == ".tar";
    }
  }

  lemma HexAreDigits(s: string)
    ensures IsHex(s) <==> AreDigits(s, |s|)
  {
    forall i | 0 <= i < |s| ensures ('0' <= s[i] <= '9' || 'a' <= s[i] <= 'f') <==> s[i] in "0123456789abcdef" {
      HexDigitMeans(s[i]);
    }
  }

  lemma HexDigitMeans(c: char)
    ensures ('0' <= c <= '9' || 'a' <= c <= 'f') <==> c in "0123456789abcdef"
  {
    var digits := "0123456789abcdef";
    if '0' <= c <= '9' {
      assert digits[c as int - '0' as int] == c;
    }
    if 'a' <= c <= 'f' {
      assert digits[c as int - 'a' as int + 10] == c;
    }
  }

  /** One archive name has one checksum in both indexes. */
  ghost predicate Agree(a: Index, b: Index) {
    forall s, t | s in a && t in b && a[s].archive == b[t].archive :: a[s].sha256 == b[t].sha256
  }

  /** What the importer demands of an index. */
  ghost predicate Admissible(index: Index) {
    index != map[] && EntriesOk(index) && Agree(index, index)
  }
}
