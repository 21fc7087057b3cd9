/** Multer's upload configuration: the stored file name (`filename`
    callback of the disk storage) and the `fileFilter` allow-list. */
module Uploads {
  import opened Outcomes
  import opened JsStrings

  /** Characters the class `[a-zA-Z0-9.]` matches; every other
      character is replaced. */
  predicate IsKeptChar(c: char) {
    ('a' <= c <= 'z') || ('A' <= c <= 'Z') || ('0' <= c <= '9') || c == '.'
  }

  /** `originalname.replace(/[^a-zA-Z0-9.]/g, '_')`: same length,
      letters, digits and dots kept in place, every other character
      turned into `_`. */
  function Sanitize(name: string): (r: string)
    ensures |r| == |name|
    ensures forall i :: 0 <= i < |name| && IsKeptChar(name[i]) ==> r[i] == name[i]
    ensures forall i :: 0 <= i < |name| && !IsKeptChar(name[i]) ==> r[i] == '_'
  {
    if name == [] then []
    else [if IsKeptChar(name[0]) then name[0] else '_'] + Sanitize(name[1..])
  }

  /** A sanitised name holds only kept characters and underscores. */
  lemma SanitizedCharacters(name: string)
    ensures forall i :: 0 <= i < |Sanitize(name)| ==> IsKeptChar(Sanitize(name)[i]) || Sanitize(name)[i] == '_'
  {
  }

  /** Sanitising twice changes nothing more. */
  lemma SanitizeIdempotent(name: string)
    ensures Sanitize(Sanitize(name)) == Sanitize(name)
  {
  }

  /** A name made only of kept characters is stored unchanged. */
  lemma SanitizeKeepsCleanNames(name: string)
    requires forall i :: 0 <= i < |name| ==> IsKeptChar(name[i])
    ensures Sanitize(name) == name
  {
  }

  /** `${timestamp}-${sanitizedName}`, with `Date.now()` passed in. */
  function StoredName(timestamp: nat, originalName: string): (stored: string)
    ensures |stored| == |DecimalString(timestamp)| + 1 + |originalName|
    ensures forall i :: 0 <= i < |stored| ==> IsKeptChar(stored[i]) || stored[i] == '_' || stored[i] == '-'
  {
    DecimalString(timestamp) + "-" + Sanitize(originalName)
  }

  /** The stored name can be taken apart again: its first `-` ends the
      timestamp digits, which read back as the timestamp, and the rest
      is the sanitised original name. */
  lemma StoredNameSplits(timestamp: nat, originalName: string)
    ensures var s, k := StoredName(timestamp, originalName), |DecimalString(timestamp)|;
      k < |s| && s[k] == '-' &&
      (forall i :: 0 <= i < k ==> s[i] != '-') &&
      (forall i :: 0 <= i < k ==> IsDigit(s[i])) &&
      DecimalValue(s[..k]) == timestamp &&
      s[k + 1..] == Sanitize(originalName)
  {
    var s, k := StoredName(timestamp, originalName), |DecimalString(timestamp)|;
    assert s[..k] == DecimalString(timestamp);
    DecimalRoundTrip(timestamp);
  }

  /** An extension made of kept characters, such as `.m4a` or `.webm`,
      survives into the stored name; the route handler relies on it. */
  lemma StoredNameKeepsExtension(timestamp: nat, originalName: string, ext: string)
    requires EndsWith(originalName, ext)
    requires forall i :: 0 <= i < |ext| ==> IsKeptChar(ext[i])
    ensures EndsWith(StoredName(timestamp, originalName), ext)
  {
    var s, n := Sanitize(originalName), |originalName|;
    assert s[n - |ext|..] == ext by {
      forall i | 0 <= i < |ext| ensures s[n - |ext| + i] == ext[i] {
        assert originalName[n - |ext| + i] == ext[i];
      }
    }
    var stored := StoredName(timestamp, originalName);
    assert stored[|stored| - |ext|..] == s[n - |ext|..];
  }

  const AllowedAudioTypes: seq<string> :=
    ["audio/mpeg", "audio/wav", "audio/mp4", "audio/x-m4a", "audio/webm"]

  const AllowedContextTypes: seq<string> :=
    ["application/pdf", "application/msword",
     "application/vnd.openxmlformats-officedocument.wordprocessingml.document"]

  /** Text of the error `fileFilter` passes to multer's callback. */
  const InvalidFileType: string := "Invalid file type"

  /** `fileFilter(req, file, cb)`: `cb(null, true)` for an accepted file,
      `cb(new Error('Invalid file type'), false)` otherwise. */
  function FileFilter(fieldname: string, mimetype: string): (r: Result<()>)
    ensures r.Ok? <==>
      (fieldname == "audio" && mimetype in AllowedAudioTypes) ||
      (fieldname == "context" && mimetype in AllowedContextTypes)
    ensures r.Err? ==> r.message == InvalidFileType
  {
    if fieldname == "audio" && mimetype in AllowedAudioTypes then Ok(())
    else if fieldname == "context" && mimetype in AllowedContextTypes then Ok(())
    else Err(InvalidFileType)
  }

  /** A MIME type is accepted on at most one field: no audio type is a
      document type. */
  lemma FileFilterFieldsDisjoint(mimetype: string)
    ensures !(FileFilter("audio", mimetype).Ok? && FileFilter("context", mimetype).Ok?)
  {
  }
}
