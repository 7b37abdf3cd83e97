/**
 * Storage keys: the pipe that accepts an upload, the function that names its
 * object and the parser's test of such names
 * (api-gateway/src/common/pipes/file-validation.pipe.ts:3-75,
 * api-gateway/src/common/utils/file-key.util.ts:3-12,
 * cv-parser/src/main/java/com/talentflow/cvparser/shared/util/FileValidator.java:27-113).
 */
module FileKeys {
  import opened Options
  import opened Strings

  const MAX_FILE_SIZE_BYTES: nat := 10485760
  const PDF_SIGNATURE: seq<nat> := [0x25, 0x50, 0x44, 0x46, 0x2d]
  const ZIP_SIGNATURES: seq<seq<nat>> := [[0x50, 0x4b, 0x03, 0x04], [0x50, 0x4b, 0x05, 0x06], [0x50, 0x4b, 0x07, 0x08]]
  const ALLOWED_MIME_TYPES := [
    "application/pdf", "application/vnd.openxmlformats-officedocument.wordprocessingml.document"
  ]

  datatype File = File(mimeType: string, originalName: string, buffer: seq<nat>, size: nat)

  // ---- The pipe ----

  datatype Rejection =
    | FileRequired | InvalidType | InvalidExtension | EmptyContent | InvalidPdf | InvalidDocx | TooLarge

  function ExtensionOf(file: File): string {
    Lower(LastPart(file.originalName))
  }

  predicate HasSignature(buffer: seq<nat>, signature: seq<nat>) {
    signature <= buffer
  }

  /** The signature that belongs to the extension is there. */
  predicate SignatureMatches(buffer: seq<nat>, extension: string) {
    if extension == "pdf" then HasSignature(buffer, PDF_SIGNATURE)
    else exists k :: 0 <= k < |ZIP_SIGNATURES| && HasSignature(buffer, ZIP_SIGNATURES[k])
  }

  function Transform(upload: Option<File>): (rejection: Option<Rejection>)
    ensures rejection.None? <==>
            && upload.Some?
            && var file := upload.value;
               && ExtensionOf(file) in ["pdf", "docx"] && SignatureMatches(file.buffer, ExtensionOf(file))
               && file.mimeType in ALLOWED_MIME_TYPES && file.size <= MAX_FILE_SIZE_BYTES
  {
    if upload.None? then Some(FileRequired)
    else
      var file := upload.value;
      var extension := ExtensionOf(file);
      if file.mimeType !in ALLOWED_MIME_TYPES then Some(InvalidType)
      else if extension !in ["pdf", "docx"] then Some(InvalidExtension)
      else if file.buffer == [] then Some(EmptyContent)
      else if extension == "pdf" && !HasSignature(file.buffer, PDF_SIGNATURE) then Some(InvalidPdf)
      else if extension == "docx" && !SignatureMatches(file.buffer, "docx") then Some(InvalidDocx)
      else if file.size > MAX_FILE_SIZE_BYTES then Some(TooLarge)
      else None
  }

  /** The name ends, after its last dot if it has one, in this extension in whatever capitals. */
  predicate EndsIn(name: string, extension: string) {
    |LastPart(name)| == |extension| && StandsAt(LastPart(name), 0, extension)
  }

  predicate StartsAsPdf(buffer: seq<nat>) {
    && |buffer| >= 5
    && buffer[0] == 0x25 && buffer[1] == 0x50 && buffer[2] == 0x44 && buffer[3] == 0x46 && buffer[4] == 0x2d
  }

  predicate StartsAsZip(buffer: seq<nat>) {
    && |buffer| >= 4 && buffer[0] == 0x50 && buffer[1] == 0x4b
    && ((buffer[2] == 3 && buffer[3] == 4) || (buffer[2] == 5 && buffer[3] == 6) || (buffer[2] == 7 && buffer[3] == 8))
  }

  lemma SignatureIff(buffer: seq<nat>)
    ensures HasSignature(buffer, PDF_SIGNATURE) <==> StartsAsPdf(buffer)
    ensures SignatureMatches(buffer, "docx") <==> StartsAsZip(buffer)
  {
    forall k | 0 <= k < |ZIP_SIGNATURES|
      ensures HasSignature(buffer, ZIP_SIGNATURES[k]) <==>
              && |buffer| >= 4 && buffer[0] == 0x50 && buffer[1] == 0x4b
              && buffer[2] == 2 * k + 3 && buffer[3] == 2 * k + 4
    {
      if |buffer| >= 4 && buffer[0] == 0x50 && buffer[1] == 0x4b && buffer[2] == 2 * k + 3 && buffer[3] == 2 * k + 4 {
        assert buffer[..4] == ZIP_SIGNATURES[k];
      }
    }
    if StartsAsPdf(buffer) {
      assert buffer[..5] == PDF_SIGNATURE;
    }
    if StartsAsZip(buffer) {
      assert HasSignature(buffer, ZIP_SIGNATURES[(buffer[2] - 3) / 2]);
    }
  }

  lemma EndsInIff(name: string, extension: string)
    requires IsLower(extension)
    ensures Lower(LastPart(name)) == extension <==> EndsIn(name, extension)
  {
    LowerIsIff(LastPart(name), extension);
  }

  lemma ExtensionsAreLower()
    ensures IsLower("pdf") && IsLower("docx")
  {
  }

  lemma ExtensionIff(name: string)
    ensures Lower(LastPart(name)) == "pdf" <==> EndsIn(name, "pdf")
    ensures Lower(LastPart(name)) == "docx" <==> EndsIn(name, "docx")
  {
    ExtensionsAreLower();
    var pdf, docx := "pdf", "docx";
    EndsInIff(name, pdf);
    EndsInIff(name, docx);
  }

  /** What is rejected, and as what, by bytes, letters and sizes: the first test that fails counts. */
  lemma TransformExactly(file: File)
    ensures Transform(None) == Some(FileRequired)
    ensures var r := Transform(Some(file));
            var typed := file.mimeType == "application/pdf" ||
                         file.mimeType == "application/vnd.openxmlformats-officedocument.wordprocessingml.document";
            var pdf, docx := EndsIn(file.originalName, "pdf"), EndsIn(file.originalName, "docx");
            var signed := (pdf && StartsAsPdf(file.buffer)) || (docx && StartsAsZip(file.buffer));
            && (r == Some(InvalidType) <==> !typed)
            && (r == Some(InvalidExtension) <==> typed && !pdf && !docx)
            && (r == Some(EmptyContent) <==> typed && (pdf || docx) && file.buffer == [])
            && (r == Some(InvalidPdf) <==> typed && pdf && file.buffer != [] && !StartsAsPdf(file.buffer))
            && (r == Some(InvalidDocx) <==> typed && docx && file.buffer != [] && !StartsAsZip(file.buffer))
            && (r == Some(TooLarge) <==> typed && signed && file.size > 10 * 1024 * 1024)
            && (r == None <==> typed && signed && file.size <= 10 * 1024 * 1024)
  {
    TypeIff(file.mimeType);
    SignatureIff(file.buffer);
    ExtensionIff(file.originalName);
    if EndsIn(file.originalName, "pdf") {
      assert ExtensionOf(file) == "pdf";
    } else if EndsIn(file.originalName, "docx") {
      assert ExtensionOf(file) == "docx";
    }
  }

  lemma TypeIff(mimeType: string)
    ensures mimeType in ALLOWED_MIME_TYPES <==>
            mimeType == "application/pdf" ||
            mimeType == "application/vnd.openxmlformats-officedocument.wordprocessingml.document"
  {
  }

  // ---- The name of the object ----

  function SafeExtension(originalName: string): string {
    var extension := if '.' in originalName then Lower(LastPart(originalName)) else "";
    if extension in ["pdf", "docx"] then extension else "pdf"
  }

  function GenerateCvFileKey(originalName: string, uuid: string): string {
    "cvs/" + uuid + "." + SafeExtension(originalName)
  }

  /** The object is called a DOCX exactly when the name has a dot and ends in that; everything else is called a PDF. */
  lemma KeyIsExactly(originalName: string, uuid: string)
    ensures GenerateCvFileKey(originalName, uuid)
         == "cvs/" + uuid + "." + (if '.' in originalName && EndsIn(originalName, "docx") then "docx" else "pdf")
  {
    ExtensionIff(originalName);
  }

  /**
   * The key of an accepted file carries the extension whose signature was
   * checked, unless the whole name is "docx" without a dot: the pipe reads
   * that as an extension and the key generator does not.
   */
  lemma KeyCarriesCheckedExtensionIff(file: File, uuid: string)
    requires Transform(Some(file)).None?
    ensures LastPart(GenerateCvFileKey(file.originalName, uuid)) == ExtensionOf(file)
            <==> '.' in file.originalName || Lower(file.originalName) != "docx"
  {
    LastPartAfterDot("cvs/" + uuid, SafeExtension(file.originalName));
  }

  /** Such a file exists: a ZIP archive called docx becomes a key ending in .pdf. */
  lemma DotlessDocxIsMislabelled(uuid: string) returns (file: File)
    ensures Transform(Some(file)).None? && ExtensionOf(file) == "docx"
    ensures LastPart(GenerateCvFileKey(file.originalName, uuid)) == "pdf"
  {
    file := File(ALLOWED_MIME_TYPES[1], "docx", ZIP_SIGNATURES[0], 4);
    var name := file.originalName;
    assert '.' !in name && Lower(name) == name;
    assert HasSignature(file.buffer, ZIP_SIGNATURES[0]);
    LastPartAfterDot("cvs/" + uuid, "pdf");
  }

  /** What stands where in a key. */
  lemma KeyAt(originalName: string, uuid: string, i: nat)
    requires i < |GenerateCvFileKey(originalName, uuid)|
    ensures var key, extension := GenerateCvFileKey(originalName, uuid), SafeExtension(originalName);
            && |key| == |uuid| + 5 + |extension|
            && key[i] == if i < 4 then "cvs/"[i]
                         else if i < |uuid| + 4 then uuid[i - 4]
                         else if i == |uuid| + 4 then '.'
                         else extension[i - |uuid| - 5]
  {
    var extension := SafeExtension(originalName);
    assert GenerateCvFileKey(originalName, uuid) == "cvs/" + (uuid + ("." + extension));
  }

  /** Fresh UUIDs make fresh keys, whatever the files are called. */
  lemma KeysAreInjective(name1: string, uuid1: string, name2: string, uuid2: string)
    requires |uuid1| == |uuid2| && GenerateCvFileKey(name1, uuid1) == GenerateCvFileKey(name2, uuid2)
    ensures uuid1 == uuid2
  {
    forall i | 0 <= i < |uuid1|
      ensures uuid1[i] == uuid2[i]
    {
      KeyAt(name1, uuid1, i + 4);
      KeyAt(name2, uuid2, i + 4);
    }
  }

  // ---- The parser's test ----

  const TRAVERSALS := ["../", "..\\", "%2e%2e%2f", "%2e%2e/", "..%2f", "%2e%2e%5c"]

  datatype KeyError = MissingKey | PathTraversal | InvalidCharacters | DoubleSlash | LeadingSlash

  predicate IsKeyChar(c: char) {
    'a' <= c <= 'z' || 'A' <= c <= 'Z' || '0' <= c <= '9' || c in "/_.-"
  }

  function ValidateFileKey(fileKey: Option<string>): Option<KeyError> {
    if fileKey.None? || fileKey.value == "" then Some(MissingKey)
    else if exists k :: 0 <= k < |TRAVERSALS| && Includes(Lower(fileKey.value), TRAVERSALS[k]) then Some(PathTraversal)
    else if exists i :: 0 <= i < |fileKey.value| && !IsKeyChar(fileKey.value[i]) then Some(InvalidCharacters)
    else if Includes(fileKey.value, "//") then Some(DoubleSlash)
    else if fileKey.value[0] == '/' then Some(LeadingSlash)
    else None
  }

  /** What each error means, in the order of the tests. */
  lemma FileKeyErrors(key: string)
    ensures ValidateFileKey(None) == Some(MissingKey) && ValidateFileKey(Some("")) == Some(MissingKey)
    ensures key != "" ==>
              var r := ValidateFileKey(Some(key));
              var traversal := || Mentions(key, "../") || Mentions(key, "..\\") || Mentions(key, "%2e%2e%2f")
                               || Mentions(key, "%2e%2e/") || Mentions(key, "..%2f") || Mentions(key, "%2e%2e%5c");
              var strange := exists i :: 0 <= i < |key| && !IsPlain(key[i]);
              var doubled := exists i :: 0 < i < |key| && key[i - 1] == '/' && key[i] == '/';
              && (r == Some(PathTraversal) <==> traversal)
              && (r == Some(InvalidCharacters) <==> !traversal && strange)
              && (r == Some(DoubleSlash) <==> !traversal && !strange && doubled)
              && (r == Some(LeadingSlash) <==> !traversal && !strange && !doubled && key[0] == '/')
              && (r == None <==> !traversal && !strange && !doubled && key[0] != '/')
  {
    TraversalIff(key);
    forall i | 0 <= i < |key|
      ensures IsKeyChar(key[i]) <==> IsPlain(key[i])
    {
      PlainIff(key[i]);
    }
    DoubledIff(key);
  }

  lemma TraversalIff(key: string)
    ensures (exists k :: 0 <= k < |TRAVERSALS| && Includes(Lower(key), TRAVERSALS[k])) <==>
            || Mentions(key, "../") || Mentions(key, "..\\") || Mentions(key, "%2e%2e%2f")
            || Mentions(key, "%2e%2e/") || Mentions(key, "..%2f") || Mentions(key, "%2e%2e%5c")
  {
    MentionsIff(key, "../");
    MentionsIff(key, "..\\");
    MentionsIff(key, "%2e%2e%2f");
    MentionsIff(key, "%2e%2e/");
    MentionsIff(key, "..%2f");
    MentionsIff(key, "%2e%2e%5c");
    assert TRAVERSALS[0] == "../" && TRAVERSALS[1] == "..\\" && TRAVERSALS[2] == "%2e%2e%2f";
    assert TRAVERSALS[3] == "%2e%2e/" && TRAVERSALS[4] == "..%2f" && TRAVERSALS[5] == "%2e%2e%5c";
  }

  /** A to Z, a to z, 0 to 9, and four signs. */
  predicate IsPlain(c: char) {
    || 65 <= c as int <= 90 || 97 <= c as int <= 122 || 48 <= c as int <= 57
    || c == '/' || c == '_' || c == '.' || c == '-'
  }

  lemma PlainIff(c: char)
    ensures IsKeyChar(c) <==> IsPlain(c)
  {
  }

  lemma DoubledIff(key: string)
    ensures Includes(key, "//") <==> exists i :: 0 < i < |key| && key[i - 1] == '/' && key[i] == '/'
  {
    IncludesIff(key, "//");
    if p :| 0 <= p <= |key| && OccursAt(key, p, "//") {
      assert key[p..p + 2][0] == '/' && key[p..p + 2][1] == '/';
      assert key[(p + 1) - 1] == '/' && key[p + 1] == '/';
    }
    if i :| 0 < i < |key| && key[i - 1] == '/' && key[i] == '/' {
      assert key[i - 1..i - 1 + 2] == "//";
      assert OccursAt(key, i - 1, "//");
    }
  }

  /** The keys that pass: plain characters throughout, no parent directory, no empty segment in front or inside. */
  lemma AcceptedKeysIff(key: string)
    ensures ValidateFileKey(Some(key)).None? <==>
            && key != "" && key[0] != '/' && (forall i :: 0 <= i < |key| ==> IsPlain(key[i]))
            && (forall i :: 0 < i < |key| ==> !(key[i - 1] == '/' && key[i] == '/'))
            && (forall i :: 1 < i < |key| ==> !(key[i - 2] == '.' && key[i - 1] == '.' && key[i] == '/'))
  {
    FileKeyErrors(key);
    ParentIff(key);
    if forall i :: 0 <= i < |key| ==> IsPlain(key[i]) {
      NotSpelled(key, "..\\", 2);
      NotSpelled(key, "%2e%2e%2f", 0);
      NotSpelled(key, "%2e%2e/", 0);
      NotSpelled(key, "..%2f", 2);
      NotSpelled(key, "%2e%2e%5c", 0);
    }
  }

  /** A term with a percent sign or a backslash does not stand among plain characters. */
  lemma NotSpelled(key: string, term: string, j: nat)
    requires forall i :: 0 <= i < |key| ==> IsPlain(key[i])
    requires j < |term| && (term[j] == '%' || term[j] == '\\')
    ensures !Mentions(key, term)
  {
    forall p | 0 <= p <= |key|
      ensures !StandsAt(key, p, term)
    {
      if p + |term| <= |key| {
        assert IsPlain(key[p + j]) && !ReadsAs(key[p + j], term[j]);
      }
    }
  }

  lemma ParentIff(key: string)
    ensures Mentions(key, "../") <==>
            exists i :: 1 < i < |key| && key[i - 2] == '.' && key[i - 1] == '.' && key[i] == '/'
  {
    if p :| 0 <= p <= |key| && StandsAt(key, p, "../") {
      var term := "../";
      assert ReadsAs(key[p + 0], term[0]) && ReadsAs(key[p + 1], term[1]) && ReadsAs(key[p + 2], term[2]);
      assert key[(p + 2) - 2] == '.' && key[(p + 2) - 1] == '.' && key[p + 2] == '/';
    }
    if i :| 1 < i < |key| && key[i - 2] == '.' && key[i - 1] == '.' && key[i] == '/' {
      assert StandsAt(key, i - 2, "../");
    }
  }

  predicate IsUuid(s: string) {
    |s| == 36 && forall i :: 0 <= i < |s| ==> '0' <= s[i] <= '9' || 'a' <= s[i] <= 'f' || s[i] == '-'
  }

  lemma ExtensionIsPlain(originalName: string, j: nat)
    requires j < |SafeExtension(originalName)|
    ensures 'a' <= SafeExtension(originalName)[j] <= 'z'
  {
    assert SafeExtension(originalName) == "pdf" || SafeExtension(originalName) == "docx";
  }

  /** Where the dots and slashes of a generated key are. */
  lemma KeyShape(originalName: string, uuid: string, i: nat)
    requires IsUuid(uuid) && i < |GenerateCvFileKey(originalName, uuid)|
    ensures var key := GenerateCvFileKey(originalName, uuid);
            && IsKeyChar(key[i]) && key[i] != '\\' && key[i] != '%' && LowerChar(key[i]) == key[i]
            && (key[i] == '/' <==> i == 3) && (key[i] == '.' <==> i == 40)
  {
    KeyAt(originalName, uuid, i);
    if i > 40 {
      ExtensionIsPlain(originalName, i - 41);
    }
  }

  lemma NoTraversal(originalName: string, uuid: string, k: nat)
    requires IsUuid(uuid) && k < |TRAVERSALS|
    ensures !Includes(Lower(GenerateCvFileKey(originalName, uuid)), TRAVERSALS[k])
  {
    var key := GenerateCvFileKey(originalName, uuid);
    forall i | 0 <= i < |key| ensures Lower(key)[i] == key[i] { KeyShape(originalName, uuid, i); }
    assert Lower(key) == key;
    if Includes(key, TRAVERSALS[k]) {
      var i := IncludedTermIsSomewhere(key, TRAVERSALS[k]);
      KeyShape(originalName, uuid, i);
      KeyShape(originalName, uuid, i + 1);
    }
  }

  /** The parser accepts every key the gateway can generate. */
  lemma GeneratedKeysAreValid(originalName: string, uuid: string)
    requires IsUuid(uuid)
    ensures ValidateFileKey(Some(GenerateCvFileKey(originalName, uuid))).None?
  {
    var key := GenerateCvFileKey(originalName, uuid);
    forall k | 0 <= k < |TRAVERSALS|
      ensures !Includes(Lower(key), TRAVERSALS[k])
    {
      NoTraversal(originalName, uuid, k);
    }
    forall i | 0 <= i < |key| ensures IsKeyChar(key[i]) { KeyShape(originalName, uuid, i); }
    if Includes(key, "//") {
      var i := IncludedTermIsSomewhere(key, "//");
      KeyShape(originalName, uuid, i);
      KeyShape(originalName, uuid, i + 1);
    }
    KeyShape(originalName, uuid, 0);
  }
}
