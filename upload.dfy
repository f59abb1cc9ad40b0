/**
 * POST /api/admin/upload: stores an uploaded image in blob storage under a
 * name made of the current time and the client's file name with every
 * character outside `[a-zA-Z0-9.-]` replaced by `_`.
 */
module Upload {
  import opened Wrappers
  import opened Json
  import opened Http
  import opened Decimal

  /** A UTF-16 code unit: JavaScript strings, and so file names, are sequences of these. */
  newtype CodeUnit = x: int | 0 <= x < 0x1_0000

  const Underscore: CodeUnit := 0x5F
  const Hyphen: CodeUnit := 0x2D
  const Dot: CodeUnit := 0x2E

  /**
   * Membership in the character class `[a-zA-Z0-9.-]`. The pattern has no
   * `u` flag, so it is tested code unit by code unit.
   */
  predicate Kept(c: CodeUnit)
  {
    (0x61 <= c <= 0x7A) || (0x41 <= c <= 0x5A) || (0x30 <= c <= 0x39) || c == Dot || c == Hyphen
  }

  /** `name.replace(/[^a-zA-Z0-9.-]/g, '_')` */
  function Sanitize(name: seq<CodeUnit>): (r: seq<CodeUnit>)
    ensures |r| == |name|
    ensures forall i :: 0 <= i < |name| && Kept(name[i]) ==> r[i] == name[i]
    ensures forall i :: 0 <= i < |name| && !Kept(name[i]) ==> r[i] == Underscore
    decreases |name|
  {
    if name == [] then []
    else [if Kept(name[0]) then name[0] else Underscore] + Sanitize(name[1..])
  }

  /** Every code unit of a sanitised name is in `[a-zA-Z0-9.-]` or is `_`. */
  lemma SanitizedIsClean(name: seq<CodeUnit>)
    ensures forall i :: 0 <= i < |Sanitize(name)| ==> Kept(Sanitize(name)[i]) || Sanitize(name)[i] == Underscore
  {
  }

  /** A name made only of kept code units comes through unchanged. */
  lemma CleanNameUnchanged(name: seq<CodeUnit>)
    requires forall i :: 0 <= i < |name| ==> Kept(name[i])
    ensures Sanitize(name) == name
  {
  }

  /** Sanitising twice is the same as sanitising once. */
  lemma SanitizeIdempotent(name: seq<CodeUnit>)
    ensures Sanitize(Sanitize(name)) == Sanitize(name)
  {
  }

  /**
   * A character outside the Basic Multilingual Plane is a surrogate pair of
   * two code units, neither of them kept, so it becomes two underscores.
   */
  lemma AstralCharacterBecomesTwoUnderscores(high: CodeUnit, low: CodeUnit)
    requires 0xD800 <= high <= 0xDBFF && 0xDC00 <= low <= 0xDFFF
    ensures Sanitize([high, low]) == [Underscore, Underscore]
  {
  }

  /** The code units of `now.toString()`, all of them ASCII digits or a leading minus sign. */
  function TimeUnits(now: TimeValue): (r: seq<CodeUnit>)
    ensures |r| == |ToString(now)|
    ensures forall i :: 0 <= i < |r| ==> r[i] as int == ToString(now)[i] as int
  {
    var s := ToString(now);
    assert forall i :: 0 <= i < |s| ==> (i == 0 && s[i] == '-') || IsDigit(s[i]) by {
      if now < 0 {
        forall i | 1 <= i < |s| ensures IsDigit(s[i]) {
          assert s[i] == s[1..][i - 1];
        }
      }
    }
    seq(|s|, i requires 0 <= i < |s| => s[i] as int as CodeUnit)
  }

  /** `` `${timestamp}-${originalName}` ``: the name the blob is stored under. */
  function StoredName(now: TimeValue, name: seq<CodeUnit>): (r: seq<CodeUnit>)
    ensures |r| == |ToString(now)| + 1 + |name|
    ensures r[..|ToString(now)|] == TimeUnits(now)
    ensures r[|ToString(now)|] == Hyphen
    ensures r[|ToString(now)| + 1..] == Sanitize(name)
  {
    TimeUnits(now) + [Hyphen] + Sanitize(name)
  }

  /** Past an optional leading minus sign, the time's digits hold no hyphen. */
  lemma TimeUnitsNoHyphen(now: TimeValue, i: int)
    requires 1 <= i < |ToString(now)|
    ensures TimeUnits(now)[i] != Hyphen
  {
  }

  /**
   * The stored name determines the time it was made at and the sanitised
   * name: uploads at distinct times are stored under distinct names.
   */
  lemma StoredNameDeterminesParts(t: TimeValue, a: seq<CodeUnit>, u: TimeValue, b: seq<CodeUnit>)
    requires StoredName(t, a) == StoredName(u, b)
    ensures t == u && Sanitize(a) == Sanitize(b)
  {
    var r := StoredName(t, a);
    var m, n := |ToString(t)|, |ToString(u)|;
    if m < n {
      TimeUnitsNoHyphen(u, m);
      assert false;
    } else if n < m {
      TimeUnitsNoHyphen(t, n);
      assert false;
    }
    assert TimeUnits(t) == TimeUnits(u);
    assert ToString(t) == ToString(u) by {
      forall i | 0 <= i < m ensures ToString(t)[i] == ToString(u)[i] {
        assert TimeUnits(t)[i] == TimeUnits(u)[i];
      }
    }
    ToStringInjective(t, u);
  }

  /** What `formData.get('file')` yields, or `Unreadable` when `request.formData()` throws. */
  datatype FileField = Unreadable | Absent | Text(text: string) | File(name: seq<CodeUnit>)

  /**
   * The handler. `put` is the blob store: given the stored name it answers
   * the blob's URL, or `None` when the upload throws. An absent field or an
   * empty text field (both falsy) is rejected with 400; a non-empty text
   * field has no `name`, so the `replace` call throws and is caught.
   */
  function Post(field: FileField, now: TimeValue, put: seq<CodeUnit> -> Option<string>): (resp: Response)
    ensures resp.status == 400 <==> field.Absent? || field == Text("")
    ensures resp.status == 400 ==> resp.body == ErrorBody("No file provided")
    ensures resp.status == 200 <==> field.File? && put(StoredName(now, field.name)).Some?
    ensures resp.status == 200 ==>
              resp.body.Obj? && resp.body.fields.Keys == {"url"} &&
              resp.body.fields["url"] == Str(put(StoredName(now, field.name)).value)
    ensures resp.status != 200 && resp.status != 400 ==>
              resp == Response(500, ErrorBody("Failed to upload file"))
  {
    match field
    case Unreadable => Response(500, ErrorBody("Failed to upload file"))
    case Absent => Response(400, ErrorBody("No file provided"))
    case Text(text) =>
      if text == "" then Response(400, ErrorBody("No file provided"))
      else Response(500, ErrorBody("Failed to upload file"))
    case File(name) =>
      var blob := put(StoredName(now, name));
      if blob.Some? then Response(200, Obj(map["url" := Str(blob.value)]))
      else Response(500, ErrorBody("Failed to upload file"))
  }
}
