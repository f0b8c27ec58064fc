/** The file path under which a child's certificate is written (`gerar_certificado`). */
module Certificate {
  import opened Results

  /** Directory prefix of every certificate path. */
  const Folder: string := "certificados/"

  /** Fixed ending of every certificate path. */
  const Suffix: string := "_certificado.pdf"

  /** The date with every '/' replaced by '-', so that it can appear in a file name. */
  function ReplaceSlashes(date: string): (r: string)
    ensures |r| == |date|
    ensures forall i :: 0 <= i < |date| ==> r[i] == (if date[i] == '/' then '-' else date[i])
    ensures '/' !in r
  {
    if date == [] then []
    else [if date[0] == '/' then '-' else date[0]] + ReplaceSlashes(date[1..])
  }

  /** "certificados/" + name + "_" + date with slashes replaced + "_certificado.pdf". */
  function CertificatePath(name: string, date: string): (path: string)
    ensures |path| == |Folder| + |name| + 1 + |date| + |Suffix|
    ensures path[..|Folder|] == Folder
    ensures path[|Folder|..|Folder| + |name|] == name
    ensures path[|Folder| + |name|] == '_'
    ensures path[|Folder| + |name| + 1..|Folder| + |name| + 1 + |date|] == ReplaceSlashes(date)
    ensures path[|path| - |Suffix|..] == Suffix
  {
    Folder + name + "_" + ReplaceSlashes(date) + Suffix
  }

  /** The text is a run of "/" and "./" parts only: each names the folder it starts in. */
  predicate SelfReferences(s: string)
    decreases |s|
  {
    s == [] || (s[0] == '/' && SelfReferences(s[1..])) || (|s| >= 2 && s[..2] == "./" && SelfReferences(s[2..]))
  }

  /**
   Length of the name's leading "/" and "./" parts. In a path these parts name the folder
   itself (an empty part or "."), so they do not move the file out of the certificate folder.
   */
  function SelfReferencePrefix(name: string): (k: nat)
    ensures k <= |name|
    ensures SelfReferences(name[..k])
    ensures forall i :: 0 <= i < k ==> name[i] == '/' || name[i] == '.'
    ensures !(k < |name| && name[k] == '/') && !(k + 1 < |name| && name[k] == '.' && name[k + 1] == '/')
    ensures '/' !in name ==> k == 0
  {
    if |name| >= 1 && name[0] == '/' then
      var rest := name[1..];
      assert forall j :: 0 <= j < |rest| ==> rest[j] == name[j + 1];
      var k := SelfReferencePrefix(rest);
      assert name[..1 + k][1..] == rest[..k];
      1 + k
    else if |name| >= 2 && name[0] == '.' && name[1] == '/' then
      var rest := name[2..];
      assert forall j :: 0 <= j < |rest| ==> rest[j] == name[j + 2];
      var k := SelfReferencePrefix(rest);
      assert name[..2 + k][2..] == rest[..k];
      assert name[..2 + k][..2] == "./";
      2 + k
    else
      assert name[..0] == [];
      0
  }

  /**
   A ".." part is a parent reference, not a self-reference: "../a" has no prefix to drop,
   while "/./a" drops its first three characters.
   */
  lemma SelfReferencePrefixExamples()
    ensures SelfReferencePrefix("../a") == 0
    ensures SelfReferencePrefix("/./a") == 3
    ensures !SelfReferences("..")
  {
    var parent, self := "../a", "/./a";
    assert parent[0] == '.' && parent[1] == '.';
    assert self[0] == '/' && self[1..][0] == '.' && self[1..][1] == '/';
    assert self[1..][2..] == "a";
    assert SelfReferencePrefix("a") == 0;
  }

  /** The name without its leading self-references: the part that names the file in the folder. */
  function DropSelfReferences(name: string): string {
    name[SelfReferencePrefix(name)..]
  }

  /**
   The file a certificate write creates inside the folder, on a POSIX file system where the
   folder holds no sub-folders. Once the leading self-references are gone, any further '/'
   is modelled as a failed write. That is exact when the next part names a sub-folder, which
   never exists; a ".." part instead reaches the parent folder, which does (see the README).
   */
  function FolderEntry(name: string, date: string): (r: Option<string>)
    ensures r.Some? <==> '/' !in DropSelfReferences(name)
    ensures r.Some? ==> r.value == CertificatePath(DropSelfReferences(name), date)
    ensures '/' !in name ==> r == Some(CertificatePath(name, date))
  {
    var base := DropSelfReferences(name);
    if '/' in base then None else Some(CertificatePath(base, date))
  }

  /** A file created by a certificate write lies directly in the folder: no '/' below the folder prefix. */
  lemma FolderEntryInFolder(name: string, date: string)
    requires FolderEntry(name, date).Some?
    ensures FolderEntry(name, date).value[..|Folder|] == Folder
    ensures forall i :: |Folder| <= i < |FolderEntry(name, date).value| ==> FolderEntry(name, date).value[i] != '/'
  {
    CertificatePathSingleLevel(DropSelfReferences(name), date);
  }

  /** Replacing slashes a second time changes nothing. */
  lemma ReplaceSlashesIdempotent(date: string)
    ensures ReplaceSlashes(ReplaceSlashes(date)) == ReplaceSlashes(date)
  {
  }

  /**
   For dates of one length (the application always writes dd/mm/yyyy), two certificate
   paths coincide exactly when the names are equal and the dates agree once slashes are replaced.
   */
  lemma CertificatePathInjective(name1: string, date1: string, name2: string, date2: string)
    requires |date1| == |date2|
    ensures CertificatePath(name1, date1) == CertificatePath(name2, date2)
        <==> name1 == name2 && ReplaceSlashes(date1) == ReplaceSlashes(date2)
  {
  }

  /** The fixed ending adds no directory level. */
  lemma SuffixHasNoSlash()
    ensures '/' !in Suffix
  {
  }

  /**
   Below the certificate folder the path holds no further '/' exactly when the name holds
   none: the date can never add a directory level, a name with '/' always does.
   */
  lemma CertificatePathSingleLevel(name: string, date: string)
    ensures (forall i :: |Folder| <= i < |CertificatePath(name, date)| ==> CertificatePath(name, date)[i] != '/')
        <==> '/' !in name
  {
    var path := CertificatePath(name, date);
    var k := |Folder|;
    if '/' in name {
      var j :| 0 <= j < |name| && name[j] == '/';
      assert path[k..k + |name|][j] == '/';
      assert path[k + j] == '/';
    } else {
      forall i | k <= i < |path|
        ensures path[i] != '/'
      {
        if i < k + |name| {
          assert path[i] == path[k..k + |name|][i - k] == name[i - k];
        } else if i == k + |name| {
          assert path[i] == '_';
        } else if i < k + |name| + 1 + |date| {
          var m := k + |name| + 1;
          assert path[i] == path[m..m + |date|][i - m] == ReplaceSlashes(date)[i - m];
        } else {
          var n := |path| - |Suffix|;
          assert path[i] == path[n..][i - n] == Suffix[i - n];
          SuffixHasNoSlash();
        }
      }
    }
  }

  /** A weigh date as the application formats it loses its slashes. */
  lemma ReplaceSlashesExample()
    ensures ReplaceSlashes("09/10/2026") == "09-10-2026"
  {
    var date, expected := "09/10/2026", "09-10-2026";
    var r := ReplaceSlashes(date);
    forall i | 0 <= i < |date|
      ensures r[i] == expected[i]
    {
    }
    assert r == expected;
  }
}
