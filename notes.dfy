/**
 * `transform_cubec_note_response`: each clinical-note point's nested
 * `metadata` is flattened into a new payload, with `main_category`,
 * `disease_name` and `page_content` renamed and a `YYMMDD` date rewritten.
 */
module CubecNotes {
  import opened Wrappers
  import opened Failures
  import opened Json
  import opened Records

  // ---------------------------------------------------------------- dates

  /** "YYMMDD" becomes "20YY-MM-DD"; a string of any other length is kept. */
  function RewriteDate(s: string): (d: string)
    ensures |s| == 6 ==> IsLongDate(d) && d[2..4] == s[..2] && d[5..7] == s[2..4] && d[8..10] == s[4..6]
    ensures |s| != 6 ==> d == s
  {
    if |s| == 6 then "20" + s[..2] + "-" + s[2..4] + "-" + s[4..6] else s
  }

  /** The shape RewriteDate produces: ten characters "20YY-MM-DD". */
  predicate IsLongDate(d: string) {
    |d| == 10 && d[..2] == "20" && d[4] == '-' && d[7] == '-'
  }

  /** The inverse of the rewrite: "20YY-MM-DD" back to "YYMMDD". */
  function CompactDate(d: string): (s: string)
    requires IsLongDate(d)
    ensures |s| == 6
  {
    d[2..4] + d[5..7] + d[8..10]
  }

  /** A six-character token becomes a long date that compacts back to the token. */
  lemma RewriteDateRoundTrip(s: string)
    requires |s| == 6
    ensures IsLongDate(RewriteDate(s))
    ensures CompactDate(RewriteDate(s)) == s
  {
    var d := RewriteDate(s);
    assert d == "20" + s[..2] + "-" + s[2..4] + "-" + s[4..6];
    assert d[2..4] == s[..2] && d[5..7] == s[2..4] && d[8..10] == s[4..6];
    assert s == s[..2] + s[2..4] + s[4..6];
  }

  /** Every long date is the rewrite of its compact form, so the rewrite loses nothing. */
  lemma CompactDateRoundTrip(d: string)
    requires IsLongDate(d)
    ensures RewriteDate(CompactDate(d)) == d
  {
    var s := CompactDate(d);
    assert s[..2] == d[2..4] && s[2..4] == d[5..7] && s[4..6] == d[8..10];
    assert d == d[..2] + d[2..4] + [d[4]] + d[5..7] + [d[7]] + d[8..10];
  }

  /** The example of the source's own comment. */
  lemma RewriteDateExample()
    ensures RewriteDate("251012") == "2025-10-12"
  {
  }

  /**
   * What `publicationDate` becomes: nothing when `date` is missing or falsy;
   * for a truthy date, `len` must exist (a number or True raises) and a
   * six-long list or dict raises when sliced and concatenated; a string is
   * rewritten, any other value of another length is copied unchanged.
   */
  function PublicationDate(metadata: Dict): (r: Result<Option<Value>, Error>)
    ensures var date := Get(metadata, "date");
            (date.None? || !Truthy(date.value)) ==> r == Success(None)
    ensures var date := Get(metadata, "date");
            r.Failure? <==> && date.Some? && Truthy(date.value)
                            && (date.value.Num? || date.value.Bool?
                                || (date.value.Arr? && |date.value.items| == 6)
                                || (date.value.Obj? && |date.value.entries| == 6))
    ensures r.Failure? ==> r.error == MalformedDate
    ensures var date := Get(metadata, "date");
            date.Some? && Truthy(date.value) && r.Success? ==> r.value.Some?
    ensures var date := Get(metadata, "date");
            r.Success? && r.value.Some? ==> date.Some? && Truthy(date.value)
                                             && (date.value.Str? || r.value.value == date.value)
  {
    match Get(metadata, "date")
    case None => Success(None)
    case Some(date) =>
      if !Truthy(date) then Success(None)
      else match date
        case Str(s) => Success(Some(Str(RewriteDate(s))))
        case Arr(items) => if |items| == 6 then Failure(MalformedDate) else Success(Some(date))
        case Obj(entries) => if |entries| == 6 then Failure(MalformedDate) else Success(Some(date))
        case _ => Failure(MalformedDate)
  }

  /**
   * A non-empty date string yields a `publicationDate`: a six-character one
   * in the "20YY-MM-DD" shape that compacts back to it, any other one as it is.
   */
  lemma PublicationDateOfString(metadata: Dict, s: string)
    requires Get(metadata, "date") == Some(Str(s)) && s != []
    ensures PublicationDate(metadata).Success?
    ensures PublicationDate(metadata).value.Some?
    ensures PublicationDate(metadata).value.value.Str?
    ensures var d := PublicationDate(metadata).value.value.s;
            if |s| == 6 then IsLongDate(d) && CompactDate(d) == s else d == s
  {
    if |s| == 6 {
      RewriteDateRoundTrip(s);
    }
  }

  /** A missing or falsy date produces no `publicationDate`. */
  lemma PublicationDateAbsent(metadata: Dict)
    requires Get(metadata, "date").None? || !Truthy(Get(metadata, "date").value)
    ensures PublicationDate(metadata) == Success(None)
  {
  }

  // ------------------------------------------------------------- payloads

  /** `payload.get("metadata", {})`, which must be a dict for `.get` to work on it. */
  function NoteMetadata(payload: Dict): (r: Result<Dict, Error>)
    ensures var m := Get(payload, "metadata");
            r.Failure? <==> m.Some? && !m.value.Obj?
    ensures r.Failure? ==> r.error == MetadataNotADict
    ensures Get(payload, "metadata").None? ==> r == Success([])
    ensures var m := Get(payload, "metadata");
            m.Some? && m.value.Obj? ==> r == Success(m.value.entries)
  {
    match Get(payload, "metadata")
    case None => Success([])
    case Some(Obj(m)) => Success(m)
    case Some(_) => Failure(MetadataNotADict)
  }

  /** The payload transforms without raising. */
  predicate NoteOk(payload: Dict) {
    NoteMetadata(payload).Success? && PublicationDate(NoteMetadata(payload).value).Success?
  }

  /** The exception a payload that does not transform raises. */
  function NoteError(payload: Dict): Error
    requires !NoteOk(payload)
  {
    if NoteMetadata(payload).Failure? then NoteMetadata(payload).error
    else PublicationDate(NoteMetadata(payload).value).error
  }

  /** A nested metadata dict, like every Python dict, has distinct keys. */
  predicate MetadataDistinct(payload: Dict) {
    match Get(payload, "metadata")
    case Some(Obj(m)) => DistinctKeys(m)
    case _ => true
  }

  /** The metadata keys that are renamed or rewritten rather than copied. */
  const RenamedKeys: seq<string> := ["main_category", "disease_name", "date"]

  /** The three keys every transformed payload starts with. */
  const LeadingKeys: seq<string> := ["title", "disease", "context"]

  /** The three leading fields before any metadata key is copied over them. */
  function BaseField(payload: Dict, metadata: Dict, k: string): Option<Value> {
    if k == "title" then Some(GetOr(metadata, "main_category", Str("")))
    else if k == "disease" then Some(GetOr(metadata, "disease_name", Str("")))
    else if k == "context" then Some(GetOr(payload, "page_content", Str("")))
    else None
  }

  /**
   * The value the transformed payload holds under k: the publication date
   * wins over everything, a copied metadata key wins over the renamed
   * fields, which default to "".
   */
  function NoteField(payload: Dict, metadata: Dict, date: Option<Value>, k: string): Option<Value> {
    if k == "publicationDate" && date.Some? then date
    else if k in Keys(metadata) && k !in RenamedKeys then Get(metadata, k)
    else BaseField(payload, metadata, k)
  }

  /** The keys of ks that are not in skip, in order. */
  function KeysOutside(ks: seq<string>, skip: seq<string>): seq<string> {
    if ks == [] then []
    else (if ks[0] !in skip then [ks[0]] else []) + KeysOutside(ks[1..], skip)
  }

  /** A key survives exactly when it is in ks and not in skip. */
  lemma {:induction false} KeysOutsideMember(ks: seq<string>, skip: seq<string>, x: string)
    ensures x in KeysOutside(ks, skip) <==> x in ks && x !in skip
  {
    if ks != [] {
      KeysOutsideMember(ks[1..], skip, x);
      assert ks == [ks[0]] + ks[1..];
    }
  }

  /** KeysOutside judges each key on its own, so it extends key by key. */
  lemma {:induction false} KeysOutsideSnoc(ks: seq<string>, skip: seq<string>, k: string)
    ensures KeysOutside(ks + [k], skip) == KeysOutside(ks, skip) + if k !in skip then [k] else []
  {
    if ks == [] {
      assert ks + [k] == [k];
    } else {
      assert (ks + [k])[0] == ks[0] && (ks + [k])[1..] == ks[1..] + [k];
      KeysOutsideSnoc(ks[1..], skip, k);
    }
  }

  /**
   * Copying one more entry keeps the dict's keys the leading ones followed
   * by the copied ones: a renamed key is skipped, a key already present
   * (a leading one) stays where it is, and a new key is appended.
   */
  lemma CopyKeysStep(present: seq<string>, lead: seq<string>, renamed: seq<string>, ks: seq<string>,
                     key: string)
    requires key !in ks
    requires present == lead + KeysOutside(ks, lead + renamed)
    ensures key in renamed ==> present == lead + KeysOutside(ks + [key], lead + renamed)
    ensures key !in renamed ==>
              (if key in present then present else present + [key]) == lead + KeysOutside(ks + [key], lead + renamed)
  {
    var skip := lead + renamed;
    var before := KeysOutside(ks, skip);
    KeysOutsideSnoc(ks, skip, key);
    if key !in skip {
      KeysOutsideMember(ks, skip, key);
      assert key !in present;
      assert lead + (before + [key]) == present + [key];
    }
  }

  /** The metadata keys that are copied as new keys, in metadata order. */
  function CopiedKeys(ks: seq<string>): seq<string> {
    KeysOutside(ks, LeadingKeys + RenamedKeys)
  }

  /**
   * The keys of a transformed payload in insertion order: the three leading
   * keys, the copied metadata keys, then `publicationDate` unless the
   * metadata already brought that key.
   */
  function NoteKeys(metadata: Dict, date: Option<Value>): seq<string> {
    var copied := CopiedKeys(Keys(metadata));
    LeadingKeys + copied + if date.Some? && "publicationDate" !in copied then ["publicationDate"] else []
  }

  /** np has exactly the keys NoteKeys lists, in that order, and every field NoteField gives it. */
  ghost predicate HasNoteFields(payload: Dict, metadata: Dict, date: Option<Value>, np: Dict) {
    && DistinctKeys(np)
    && Keys(np) == NoteKeys(metadata, date)
    && forall k :: Get(np, k) == NoteField(payload, metadata, date, k)
  }

  /** np is the transformed payload of payload. */
  ghost predicate IsNotePayload(payload: Dict, np: Dict)
    requires NoteOk(payload)
  {
    var metadata := NoteMetadata(payload).value;
    HasNoteFields(payload, metadata, PublicationDate(metadata).value, np)
  }

  /** The value under k once the first n metadata entries have been copied. */
  function CopiedField(payload: Dict, metadata: Dict, n: nat, k: string): Option<Value>
    requires n <= |metadata|
  {
    if k in Keys(metadata[..n]) && k !in RenamedKeys then Get(metadata, k)
    else BaseField(payload, metadata, k)
  }

  /** np holds the leading fields with the first n metadata entries copied over them. */
  ghost predicate CopiedUpTo(payload: Dict, metadata: Dict, n: nat, np: Dict)
    requires n <= |metadata|
  {
    && Keys(np) == LeadingKeys + CopiedKeys(Keys(metadata[..n]))
    && forall k :: Get(np, k) == CopiedField(payload, metadata, n, k)
  }

  /** One turn of the copy loop: `new_payload[key] = value` unless the key is renamed. */
  function CopyEntry(np: Dict, key: string, value: Value): Dict {
    if key !in RenamedKeys then Set(np, key, value) else np
  }

  /** In a dict with distinct keys, an entry's key does not occur before it. */
  lemma PrefixLacksKey(metadata: Dict, i: nat)
    requires DistinctKeys(metadata) && i < |metadata|
    ensures metadata[i].0 !in Keys(metadata[..i])
  {
  }

  /** The keys of the metadata prefix grow by the entry's key. */
  lemma PrefixKeysSnoc(metadata: Dict, i: nat)
    requires i < |metadata|
    ensures Keys(metadata[..i + 1]) == Keys(metadata[..i]) + [metadata[i].0]
  {
    KeysAppend(metadata[..i], [metadata[i]]);
    assert metadata[..i + 1] == metadata[..i] + [metadata[i]];
  }

  /** One turn of the copy loop extends the copied keys by the entry's key when it is new. */
  lemma CopyStepKeys(metadata: Dict, i: nat, np: Dict)
    requires DistinctKeys(metadata) && i < |metadata|
    requires Keys(np) == LeadingKeys + CopiedKeys(Keys(metadata[..i]))
    ensures Keys(CopyEntry(np, metadata[i].0, metadata[i].1)) == LeadingKeys + CopiedKeys(Keys(metadata[..i + 1]))
  {
    PrefixKeysSnoc(metadata, i);
    PrefixLacksKey(metadata, i);
    CopyKeysStep(Keys(np), LeadingKeys, RenamedKeys, Keys(metadata[..i]), metadata[i].0);
  }

  /** One turn of the copy loop for key k: only the entry's own key can change. */
  lemma CopyStepField(payload: Dict, metadata: Dict, i: nat, np: Dict, k: string)
    requires DistinctKeys(metadata) && i < |metadata|
    requires Get(np, k) == CopiedField(payload, metadata, i, k)
    ensures Get(CopyEntry(np, metadata[i].0, metadata[i].1), k) == CopiedField(payload, metadata, i + 1, k)
  {
    PrefixKeysSnoc(metadata, i);
    if k == metadata[i].0 {
      GetEntry(metadata, i);
    }
  }

  /** One turn of the copy loop gives the entry's key the entry's value. */
  lemma CopyStepFields(payload: Dict, metadata: Dict, i: nat, np: Dict)
    requires DistinctKeys(metadata) && i < |metadata|
    requires forall k :: Get(np, k) == CopiedField(payload, metadata, i, k)
    ensures forall k :: Get(CopyEntry(np, metadata[i].0, metadata[i].1), k) == CopiedField(payload, metadata, i + 1, k)
  {
    forall k ensures Get(CopyEntry(np, metadata[i].0, metadata[i].1), k) == CopiedField(payload, metadata, i + 1, k) {
      CopyStepField(payload, metadata, i, np, k);
    }
  }

  /** `new_payload["publicationDate"] = ...` when there is a date. */
  function WithDate(np: Dict, date: Option<Value>): Dict {
    if date.Some? then Set(np, "publicationDate", date.value) else np
  }

  /** After the whole metadata is copied, setting the date gives key k its final value. */
  lemma FinishField(payload: Dict, metadata: Dict, date: Option<Value>, np: Dict, k: string)
    requires Get(np, k) == CopiedField(payload, metadata, |metadata|, k)
    ensures Get(WithDate(np, date), k)
              == NoteField(payload, metadata, date, k)
  {
    assert metadata[..|metadata|] == metadata;
  }

  /** After the whole metadata is copied, setting the date gives every field its final value. */
  lemma FinishFields(payload: Dict, metadata: Dict, date: Option<Value>, np: Dict)
    requires forall k :: Get(np, k) == CopiedField(payload, metadata, |metadata|, k)
    ensures var final := WithDate(np, date);
            forall k :: Get(final, k) == NoteField(payload, metadata, date, k)
  {
    forall k ensures Get(WithDate(np, date), k)
                       == NoteField(payload, metadata, date, k) {
      FinishField(payload, metadata, date, np, k);
    }
  }

  /** Copying every metadata entry and then setting the date gives the transformed payload. */
  lemma FinishNotePayload(payload: Dict, metadata: Dict, date: Option<Value>, np: Dict)
    requires DistinctKeys(np)
    requires CopiedUpTo(payload, metadata, |metadata|, np)
    ensures HasNoteFields(payload, metadata, date, WithDate(np, date))
  {
    assert metadata[..|metadata|] == metadata;
    FinishFields(payload, metadata, date, np);
    FinishKeys(metadata, date, np);
    if date.Some? {
      SetKeepsDistinct(np, "publicationDate", date.value);
    }
  }

  /** Setting the date after the copy loop gives the keys NoteKeys lists. */
  lemma FinishKeys(metadata: Dict, date: Option<Value>, np: Dict)
    requires Keys(np) == LeadingKeys + CopiedKeys(Keys(metadata))
    ensures Keys(WithDate(np, date)) == NoteKeys(metadata, date)
  {
    var copied := CopiedKeys(Keys(metadata));
    if date.Some? {
      assert "publicationDate" !in LeadingKeys;
      AppendNewKey(LeadingKeys, copied, Keys(np), "publicationDate");
    } else {
      assert LeadingKeys + copied + [] == LeadingKeys + copied;
    }
  }

  /** Assigning a key that no leading key equals appends it exactly when no copied key equals it. */
  lemma AppendNewKey(lead: seq<string>, copied: seq<string>, present: seq<string>, key: string)
    requires present == lead + copied && key !in lead
    ensures (if key in present then present else present + [key])
              == lead + copied + if key !in copied then [key] else []
  {
  }

  /** The dict literal `new_payload` starts as. */
  function LeadingFields(payload: Dict, metadata: Dict): Dict {
    [("title", GetOr(metadata, "main_category", Str(""))),
     ("disease", GetOr(metadata, "disease_name", Str(""))),
     ("context", GetOr(payload, "page_content", Str("")))]
  }

  /** Before the loop nothing is copied yet. */
  lemma StartCopy(payload: Dict, metadata: Dict)
    ensures DistinctKeys(LeadingFields(payload, metadata))
    ensures CopiedUpTo(payload, metadata, 0, LeadingFields(payload, metadata))
  {
    var np := LeadingFields(payload, metadata);
    assert Keys(np) == LeadingKeys;
    assert metadata[..0] == [];
  }

  /** The loop copying every metadata key except the renamed ones into `new_payload`. */
  method CopyMetadata(payload: Dict, metadata: Dict) returns (np: Dict)
    ensures DistinctKeys(np)
    ensures DistinctKeys(metadata) ==> CopiedUpTo(payload, metadata, |metadata|, np)
  {
    np := LeadingFields(payload, metadata);
    ghost var distinct := DistinctKeys(metadata);
    StartCopy(payload, metadata);
    for i := 0 to |metadata|
      invariant DistinctKeys(np)
      invariant distinct ==> CopiedUpTo(payload, metadata, i, np)
    {
      var (key, value) := metadata[i];
      if distinct {
        CopyStepKeys(metadata, i, np);
        CopyStepFields(payload, metadata, i, np);
      }
      if key !in RenamedKeys {
        SetKeepsDistinct(np, key, value);
        np := Set(np, key, value);
      }
    }
  }

  /** The construction of `new_payload` for one point. */
  method BuildNotePayload(payload: Dict) returns (r: Result<Dict, Error>)
    ensures r.Success? <==> NoteOk(payload)
    ensures r.Failure? ==> r.error == NoteError(payload)
    ensures r.Success? && MetadataDistinct(payload) ==> IsNotePayload(payload, r.value)
  {
    var metadata :- NoteMetadata(payload);
    var np := CopyMetadata(payload, metadata);
    var date :- PublicationDate(metadata);
    ghost var distinct := DistinctKeys(metadata);
    if distinct {
      FinishNotePayload(payload, metadata, date, np);
    }
    if date.Some? {
      np := Set(np, "publicationDate", date.value);
    }
    r := Success(np);
  }

  /** q is the transformed point of p. */
  ghost predicate TransformedFrom(p: Point, q: Point) {
    && q.id == p.id
    && q.vector == p.vector
    && NoteOk(p.payload)
    && (MetadataDistinct(p.payload) ==> IsNotePayload(p.payload, q.payload))
  }

  /**
   * `transform_cubec_note_response`: one output point per input point, in
   * order, with the same id and the vector key exactly when the input has
   * one; the first payload that does not transform raises.
   */
  method TransformCubecNoteResponse(points: seq<Point>) returns (r: Result<seq<Point>, Error>)
    ensures r.Success? <==> forall i :: 0 <= i < |points| ==> NoteOk(points[i].payload)
    ensures r.Failure? ==> exists i :: 0 <= i < |points| && !NoteOk(points[i].payload)
                                       && r.error == NoteError(points[i].payload)
                                       && forall j :: 0 <= j < i ==> NoteOk(points[j].payload)
    ensures r.Success? ==> |r.value| == |points|
                           && forall i :: 0 <= i < |points| ==> TransformedFrom(points[i], r.value[i])
  {
    var transformed: seq<Point> := [];
    for i := 0 to |points|
      invariant |transformed| == i
      invariant forall j :: 0 <= j < i ==> TransformedFrom(points[j], transformed[j])
    {
      var point := points[i];
      var np := BuildNotePayload(point.payload);
      if np.Failure? {
        return Failure(np.error);
      }
      transformed := transformed + [Point(point.id, np.value, point.vector)];
    }
    r := Success(transformed);
  }
}
