/**
 * The media host adapter: the `public_id` it asks the host to use and the
 * way it reads the host's answer. The upload stream itself is a foreign call;
 * its outcome is given to the model as a `HostAnswer`.
 */
module Cloudinary {
  import opened Wrappers
  import opened JsonValues
  import opened Text

  predicate IsAsciiAlphanumeric(c: char)
  {
    ('a' <= c <= 'z') || ('A' <= c <= 'Z') || ('0' <= c <= '9')
  }

  /**
   * What `replace(/[^a-zA-Z0-9]/g, '-')` writes for one character. The pattern
   * has no `u` flag, so it matches single UTF-16 code units: a character above
   * U+FFFF is two code units and becomes two dashes.
   */
  function SanitizeUnits(c: char): (r: string)
    ensures |r| == CodeUnits(c)
  {
    if IsAsciiAlphanumeric(c) then [c] else if c as int > 0xFFFF then "--" else "-"
  }

  /** `fileName.replace(/[^a-zA-Z0-9]/g, '-')`. */
  function Sanitize(name: string): (r: string)
    ensures |r| == Utf16Length(name)
  {
    if name == [] then [] else SanitizeUnits(name[0]) + Sanitize(name[1..])
  }

  /** Sanitising works character by character: it distributes over concatenation. */
  lemma {:induction false} SanitizeAppend(a: string, b: string)
    ensures Sanitize(a + b) == Sanitize(a) + Sanitize(b)
  {
    if a == [] {
      assert a + b == b;
    } else {
      assert (a + b)[0] == a[0] && (a + b)[1..] == a[1..] + b;
      SanitizeAppend(a[1..], b);
    }
  }

  /** Every character of a sanitised name is an ASCII letter, an ASCII digit or '-'. */
  lemma {:induction false} SanitizeAlphabet(name: string)
    ensures forall i :: 0 <= i < |Sanitize(name)| ==>
      IsAsciiAlphanumeric(Sanitize(name)[i]) || Sanitize(name)[i] == '-'
  {
    if name != [] {
      SanitizeAlphabet(name[1..]);
      var r, u := Sanitize(name), SanitizeUnits(name[0]);
      assert r == u + Sanitize(name[1..]);
      forall i | 0 <= i < |r| ensures IsAsciiAlphanumeric(r[i]) || r[i] == '-' {
        if i >= |u| {
          assert r[i] == Sanitize(name[1..])[i - |u|];
        }
      }
    }
  }

  /**
   * Character `i` of the name is written at its UTF-16 offset: kept if it is an
   * ASCII letter or digit, otherwise replaced by one '-' per code unit.
   */
  lemma {:induction false} SanitizeKeepsAlphanumerics(name: string, i: nat)
    requires i < |name|
    ensures var r, off := Sanitize(name), Utf16Length(name[..i]);
      && off + CodeUnits(name[i]) <= |r|
      && (IsAsciiAlphanumeric(name[i]) ==> r[off] == name[i])
      && (!IsAsciiAlphanumeric(name[i]) ==> forall k :: off <= k < off + CodeUnits(name[i]) ==> r[k] == '-')
  {
    var r, u := Sanitize(name), SanitizeUnits(name[0]);
    assert r == u + Sanitize(name[1..]);
    if i == 0 {
      assert name[..i] == [];
    } else {
      var rest := name[1..];
      SanitizeKeepsAlphanumerics(rest, i - 1);
      Utf16LengthPrefix(name, i);
      assert rest[i - 1] == name[i];
      forall k | |u| <= k < |r| ensures r[k] == Sanitize(rest)[k - |u|] {
      }
    }
  }

  /** A name made only of ASCII letters, digits and '-' is left as it is. */
  lemma {:induction false} SanitizeFixes(s: string)
    requires forall i :: 0 <= i < |s| ==> IsAsciiAlphanumeric(s[i]) || s[i] == '-'
    ensures Sanitize(s) == s
  {
    if s != [] {
      SanitizeFixes(s[1..]);
      assert s == [s[0]] + s[1..];
    }
  }

  /** Sanitising a sanitised name changes nothing. */
  lemma SanitizeIdempotent(name: string)
    ensures Sanitize(Sanitize(name)) == Sanitize(name)
  {
    SanitizeAlphabet(name);
    SanitizeFixes(Sanitize(name));
  }

  /** The `public_id` sent with an upload: `<Date.now()>-<sanitised file name>`. */
  function PublicId(now: nat, fileName: string): string
  {
    NatToString(now) + "-" + Sanitize(fileName)
  }

  /**
   * A public id splits back into its parts: it starts with the decimal digits of
   * the timestamp, the first '-' follows them, and the rest is the sanitised name
   * (one character per UTF-16 code unit of the original name).
   */
  lemma PublicIdParts(now: nat, fileName: string)
    ensures var p, k := PublicId(now, fileName), |NatToString(now)|;
      && |p| == k + 1 + Utf16Length(fileName)
      && (forall i :: 0 <= i < k ==> IsDigit(p[i]))
      && p[k] == '-'
      && DigitsValue(p[..k]) == now
      && p[k + 1..] == Sanitize(fileName)
  {
    var p, k := PublicId(now, fileName), |NatToString(now)|;
    assert p[..k] == NatToString(now);
    DigitsValueOfNatToString(now);
  }

  /** The options object handed to the host's upload stream. */
  datatype UploadOptions = UploadOptions(
    folder: string,
    resourceType: string,
    publicId: string,
    useFilename: bool,
    uniqueFilename: bool)

  /** The options for one upload into the default folder. */
  function UploadRequest(fileName: string, now: nat): (o: UploadOptions)
    ensures o.folder == "resources" && o.resourceType == "auto"
    ensures o.publicId == PublicId(now, fileName)
    ensures |o.publicId| == |NatToString(now)| + 1 + Utf16Length(fileName)
    ensures o.useFilename && o.uniqueFilename
  {
    UploadOptions("resources", "auto", PublicId(now, fileName), true, true)
  }

  /** What the host answered to one upload: its result object, or the error it reported. */
  datatype HostAnswer = HostOk(response: Row) | HostError(message: string)

  /** The upload result handed back to the service. */
  datatype UploadResult = UploadResult(url: Json, publicId: Json, resourceType: Json, format: Json, size: Json)

  /** The field mapping of a successful upload. */
  function ReadHostResult(response: Row): UploadResult
  {
    UploadResult(
      Field(response, "secure_url"),
      Field(response, "public_id"),
      Field(response, "resource_type"),
      Field(response, "format"),
      Field(response, "bytes"))
  }

  /** `uploadToCloudinary`: resolves with the mapped result, rejects with the host's error. */
  function UploadToCloudinary(answer: HostAnswer): (r: Result<UploadResult, string>)
    ensures answer.HostError? ==> r == Failure(answer.message)
    ensures answer.HostOk? ==> r.Success?
    ensures r.Success? ==>
      && r.value.url == Field(answer.response, "secure_url")
      && r.value.publicId == Field(answer.response, "public_id")
      && r.value.resourceType == Field(answer.response, "resource_type")
      && r.value.format == Field(answer.response, "format")
      && r.value.size == Field(answer.response, "bytes")
  {
    match answer
    case HostOk(response) => Success(ReadHostResult(response))
    case HostError(message) => Failure(message)
  }
}
