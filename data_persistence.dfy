/** The download record store (DataPersistenceManager.swift): the document id of a record,
    the field map a record is saved as, how a stored document is read back, and the remote
    "user_downloads" collection as a map from document id to document. */
module DataPersistence {
  import opened Wrappers
  import opened Models

  /** The errors the manager reports, one per operation. */
  datatype DatabaseError = FailedToSaveData | FailedToFetchData | FailedToDeleteData

  /** A value stored in one field of a document. The document store is schema-less, so a
      field may hold any of these, whatever the record type expects there. */
  datatype FieldValue =
    | IntValue(i: int)
    | StringValue(s: string)
    | DoubleValue(d: real)
    | BoolValue(b: bool)
    | NullValue

  /** A stored document: field name to value. */
  type Document = map<string, FieldValue>

  /** The remote collection: document id to document. */
  type Collection = map<string, Document>

  // ---------------------------------------------------------------------------------------
  // Document id: "\(userId)_\(id)"
  // ---------------------------------------------------------------------------------------

  predicate IsDigit(c: char) {
    '0' <= c <= '9'
  }

  function DigitChar(d: nat): (c: char)
    requires d < 10
    ensures IsDigit(c)
    ensures c as int - '0' as int == d
  {
    ('0' as int + d) as char
  }

  /** The decimal digits of a natural number, most significant first, without leading zeros. */
  function NatToDecimal(n: nat): (s: string)
    ensures |s| >= 1
    ensures (|s| == 1) == (n < 10)
    ensures forall i :: 0 <= i < |s| ==> IsDigit(s[i])
  {
    if n < 10 then [DigitChar(n)] else NatToDecimal(n / 10) + [DigitChar(n % 10)]
  }

  /** How string interpolation renders an `Int`: an optional minus sign, then the digits. */
  function IntToDecimal(n: int): (s: string)
    ensures s != []
    ensures (s[0] == '-') == (n < 0)
    ensures forall i :: 0 <= i < |s| ==> s[i] == '-' || IsDigit(s[i])
  {
    if n < 0 then "-" + NatToDecimal(-n) else NatToDecimal(n)
  }

  /** The number a string of decimal digits denotes, most significant digit first. */
  function DecimalValue(s: string): int {
    if s == [] then 0 else DecimalValue(s[..|s| - 1]) * 10 + (s[|s| - 1] as int - '0' as int)
  }

  /** The number a decimal string with an optional leading minus sign denotes. */
  function SignedDecimalValue(s: string): int {
    if s != [] && s[0] == '-' then -DecimalValue(s[1..]) else DecimalValue(s)
  }

  /** Reading back the digits of a natural number gives the number. */
  lemma {:induction false} NatToDecimalValue(n: nat)
    ensures DecimalValue(NatToDecimal(n)) == n
    decreases n
  {
    if n >= 10 {
      var s := NatToDecimal(n);
      assert s[..|s| - 1] == NatToDecimal(n / 10);
      NatToDecimalValue(n / 10);
    }
  }

  /** Reading back the rendering of an integer gives the integer. */
  lemma IntToDecimalValue(n: int)
    ensures SignedDecimalValue(IntToDecimal(n)) == n
  {
    if n < 0 {
      assert IntToDecimal(n)[1..] == NatToDecimal(-n);
      NatToDecimalValue(-n);
    } else {
      NatToDecimalValue(n);
    }
  }

  /** The id a record is saved and deleted under: the user id, '_', then the record id in
      decimal, which is the only part of the id after the user id and reads back as the id. */
  function DocumentKey(userId: string, id: int): (k: string)
    ensures |k| > |userId| && k[..|userId|] == userId && k[|userId|] == '_'
    ensures forall j :: |userId| < j < |k| ==> k[j] != '_'
    ensures SignedDecimalValue(k[|userId| + 1..]) == id
  {
    var k := userId + "_" + IntToDecimal(id);
    assert k[|userId| + 1..] == IntToDecimal(id);
    IntToDecimalValue(id);
    k
  }

  /** The document id of a record; save and delete both compute it this way. */
  function DocumentId(t: FirestoreTitle): (k: string)
    ensures |k| > |t.userId| && k[..|t.userId|] == t.userId && k[|t.userId|] == '_'
    ensures SignedDecimalValue(k[|t.userId| + 1..]) == t.id
  {
    DocumentKey(t.userId, t.id)
  }

  lemma {:induction false} NatToDecimalInjective(a: nat, b: nat)
    requires NatToDecimal(a) == NatToDecimal(b)
    ensures a == b
    decreases a
  {
    if a >= 10 && b >= 10 {
      var s := NatToDecimal(a);
      assert s == NatToDecimal(a / 10) + [DigitChar(a % 10)];
      assert s == NatToDecimal(b / 10) + [DigitChar(b % 10)];
      assert NatToDecimal(a / 10) == s[..|s| - 1] == NatToDecimal(b / 10);
      assert DigitChar(a % 10) == s[|s| - 1] == DigitChar(b % 10);
      NatToDecimalInjective(a / 10, b / 10);
    } else if a < 10 && b < 10 {
      assert [DigitChar(a)] == [DigitChar(b)];
    }
  }

  lemma IntToDecimalInjective(a: int, b: int)
    requires IntToDecimal(a) == IntToDecimal(b)
    ensures a == b
  {
    var s := IntToDecimal(a);
    if a < 0 && b < 0 {
      assert NatToDecimal(-a) == s[1..] == NatToDecimal(-b);
      NatToDecimalInjective(-a, -b);
    } else if a >= 0 && b >= 0 {
      NatToDecimalInjective(a, b);
    }
  }

  /** A document id determines the user and the record id it was built from: the decimal
      rendering of an integer never contains '_', so the last '_' of the id ends the user id. */
  lemma DocumentKeyInjective(u1: string, i1: int, u2: string, i2: int)
    ensures DocumentKey(u1, i1) == DocumentKey(u2, i2) <==> u1 == u2 && i1 == i2
  {
    if DocumentKey(u1, i1) == DocumentKey(u2, i2) {
      var k := DocumentKey(u1, i1);
      assert k[|u1|] == '_' && k[|u2|] == '_';
      assert |u1| == |u2|;
      assert u1 == k[..|u1|] == u2;
      assert IntToDecimal(i1) == k[|u1| + 1..] == IntToDecimal(i2);
      IntToDecimalInjective(i1, i2);
    }
  }

  lemma DocumentIdInjective(a: FirestoreTitle, b: FirestoreTitle)
    ensures DocumentId(a) == DocumentId(b) <==> a.userId == b.userId && a.id == b.id
  {
    DocumentKeyInjective(a.userId, a.id, b.userId, b.id);
  }

  // ---------------------------------------------------------------------------------------
  // Encoding on save, decoding on fetch
  // ---------------------------------------------------------------------------------------

  /** The fields every saved document has. */
  const FieldNames: set<string> := {"id", "userId", "mediaType", "originalName", "originalTitle",
                                    "posterPath", "overview", "voteCount", "releaseDate", "voteAverage"}

  /** The fields that hold an optional string on the record. */
  const OptionalStringFieldNames: set<string> := {"mediaType", "originalName", "originalTitle",
                                                  "posterPath", "overview", "releaseDate"}

  /** The optional string field of a record with the given name. */
  function OptionalStringField(t: FirestoreTitle, name: string): Option<string>
    requires name in OptionalStringFieldNames
  {
    match name
    case "mediaType" => t.mediaType
    case "originalName" => t.originalName
    case "originalTitle" => t.originalTitle
    case "posterPath" => t.posterPath
    case "overview" => t.overview
    case "releaseDate" => t.releaseDate
  }

  /** True when no optional string of the record is nil. */
  predicate NoNilStrings(t: FirestoreTitle) {
    && t.mediaType.Some? && t.originalName.Some? && t.originalTitle.Some?
    && t.posterPath.Some? && t.overview.Some? && t.releaseDate.Some?
  }

  function EmptyIfNil(o: Option<string>): (r: Option<string>)
    ensures r.Some?
    ensures o.Some? ==> r == o
    ensures o.None? ==> r == Some("")
  {
    Some(o.GetOr(""))
  }

  /** The record with every nil optional string replaced by "": what a save followed by a
      fetch gives back. */
  function WithEmptyForNil(t: FirestoreTitle): (r: FirestoreTitle)
    ensures NoNilStrings(r)
    ensures NoNilStrings(t) ==> r == t
    ensures r.id == t.id && r.userId == t.userId && r.voteCount == t.voteCount && r.voteAverage == t.voteAverage
    ensures forall name :: name in OptionalStringFieldNames ==>
              OptionalStringField(r, name) == EmptyIfNil(OptionalStringField(t, name))
  {
    t.(mediaType := EmptyIfNil(t.mediaType),
       originalName := EmptyIfNil(t.originalName),
       originalTitle := EmptyIfNil(t.originalTitle),
       posterPath := EmptyIfNil(t.posterPath),
       overview := EmptyIfNil(t.overview),
       releaseDate := EmptyIfNil(t.releaseDate))
  }

  /** The field map a record is saved as: every nil optional string is written as "". */
  function Encode(t: FirestoreTitle): (d: Document)
    ensures d.Keys == FieldNames
    ensures d["id"].IntValue? && d["userId"].StringValue? && d["voteCount"].IntValue? && d["voteAverage"].DoubleValue?
    ensures forall name :: name in OptionalStringFieldNames ==> d[name].StringValue?
    ensures Decode(d) == WithEmptyForNil(t)
  {
    map["id" := IntValue(t.id),
        "userId" := StringValue(t.userId),
        "mediaType" := StringValue(t.mediaType.GetOr("")),
        "originalName" := StringValue(t.originalName.GetOr("")),
        "originalTitle" := StringValue(t.originalTitle.GetOr("")),
        "posterPath" := StringValue(t.posterPath.GetOr("")),
        "overview" := StringValue(t.overview.GetOr("")),
        "voteCount" := IntValue(t.voteCount),
        "releaseDate" := StringValue(t.releaseDate.GetOr("")),
        "voteAverage" := DoubleValue(t.voteAverage)]
  }

  /** `data[name] as? Int`. */
  function IntField(d: Document, name: string): Option<int> {
    if name in d && d[name].IntValue? then Some(d[name].i) else None
  }

  /** `data[name] as? String`. */
  function StringField(d: Document, name: string): Option<string> {
    if name in d && d[name].StringValue? then Some(d[name].s) else None
  }

  /** `data[name] as? Double`. */
  function DoubleField(d: Document, name: string): Option<real> {
    if name in d && d[name].DoubleValue? then Some(d[name].d) else None
  }

  predicate HasInt(d: Document, name: string) {
    name in d && d[name].IntValue?
  }

  predicate HasString(d: Document, name: string) {
    name in d && d[name].StringValue?
  }

  /** Reads a stored document back as a record; never fails. A missing or ill-typed `id` or
      `voteCount` becomes 0, `userId` becomes "", `voteAverage` 0.0, and an optional string
      becomes nil. */
  function Decode(d: Document): (t: FirestoreTitle)
    ensures t.id == (if HasInt(d, "id") then d["id"].i else 0)
    ensures t.voteCount == (if HasInt(d, "voteCount") then d["voteCount"].i else 0)
    ensures t.userId == (if HasString(d, "userId") then d["userId"].s else "")
    ensures t.voteAverage == (if "voteAverage" in d && d["voteAverage"].DoubleValue? then d["voteAverage"].d else 0.0)
    ensures forall name :: name in OptionalStringFieldNames ==>
              OptionalStringField(t, name) == if HasString(d, name) then Some(d[name].s) else None
  {
    FirestoreTitle(
      id := IntField(d, "id").GetOr(0),
      userId := StringField(d, "userId").GetOr(""),
      mediaType := StringField(d, "mediaType"),
      originalName := StringField(d, "originalName"),
      originalTitle := StringField(d, "originalTitle"),
      posterPath := StringField(d, "posterPath"),
      overview := StringField(d, "overview"),
      voteCount := IntField(d, "voteCount").GetOr(0),
      releaseDate := StringField(d, "releaseDate"),
      voteAverage := DoubleField(d, "voteAverage").GetOr(0.0))
  }

  /** A document with none of the expected fields reads back as the all-default record. */
  lemma DecodeEmptyDocument()
    ensures Decode(map[]) == FirestoreTitle(0, "", None, None, None, None, None, 0, None, 0.0)
  {
  }

  /** Saving cannot tell nil from "": two records are saved as the same document exactly when
      they agree once every nil optional string is read as "". */
  lemma EncodeConflatesNilAndEmpty(a: FirestoreTitle, b: FirestoreTitle)
    ensures Encode(a) == Encode(b) <==> WithEmptyForNil(a) == WithEmptyForNil(b)
  {
    if WithEmptyForNil(a) == WithEmptyForNil(b) {
      EncodeIgnoresNil(a);
      EncodeIgnoresNil(b);
    }
  }

  lemma EncodeIgnoresNil(t: FirestoreTitle)
    ensures Encode(WithEmptyForNil(t)) == Encode(t)
  {
  }

  /** A record survives a save and a fetch unchanged exactly when none of its optional
      strings is nil. */
  lemma RoundTripExactIff(t: FirestoreTitle)
    ensures Decode(Encode(t)) == t <==> NoNilStrings(t)
  {
  }

  // ---------------------------------------------------------------------------------------
  // The collection and what each call does to it
  // ---------------------------------------------------------------------------------------

  /** `setData` on the record's document id: insert or overwrite that one document. */
  function Upsert(docs: Collection, t: FirestoreTitle): (r: Collection)
    ensures r.Keys == docs.Keys + {DocumentId(t)}
    ensures r[DocumentId(t)] == Encode(t)
    ensures forall k :: k in docs && k != DocumentId(t) ==> r[k] == docs[k]
  {
    docs[DocumentId(t) := Encode(t)]
  }

  /** `delete` on the record's document id: remove that one document, if present. */
  function Remove(docs: Collection, t: FirestoreTitle): (r: Collection)
    ensures r.Keys == docs.Keys - {DocumentId(t)}
    ensures forall k :: k in r ==> r[k] == docs[k]
  {
    docs - {DocumentId(t)}
  }

  /** The ids of the documents whose `userId` field is the string `userId`
      (`whereField("userId", isEqualTo: userId)`). */
  function Matching(docs: Collection, userId: string): (ks: set<string>)
    ensures ks <= docs.Keys
    ensures forall k :: k in ks ==> Decode(docs[k]).userId == userId
  {
    set k | k in docs && "userId" in docs[k] && docs[k]["userId"] == StringValue(userId)
  }

  /** `ids` lists every element of `ks` exactly once, in some order. */
  ghost predicate IsEnumeration(ids: seq<string>, ks: set<string>) {
    && (forall i, j :: 0 <= i < j < |ids| ==> ids[i] != ids[j])
    && (forall i :: 0 <= i < |ids| ==> ids[i] in ks)
    && (forall k :: k in ks ==> k in ids)
  }

  /** The records the documents listed in `ids` decode to, in that order. */
  function DecodeAll(docs: Collection, ids: seq<string>): (ts: seq<FirestoreTitle>)
    requires forall i :: 0 <= i < |ids| ==> ids[i] in docs
    ensures |ts| == |ids|
    ensures forall i :: 0 <= i < |ids| ==> ts[i] == Decode(docs[ids[i]])
  {
    seq(|ids|, i requires 0 <= i < |ids| => Decode(docs[ids[i]]))
  }

  /** Every document is a saved record filed under that record's own document id. The store
      is shared with other clients, so this is not guaranteed; save and delete preserve it. */
  ghost predicate WellFormed(docs: Collection) {
    forall k :: k in docs ==> docs[k] == Encode(Decode(docs[k])) && k == DocumentId(Decode(docs[k]))
  }

  /** In a well-formed store a document's id is the id of the record it decodes to. */
  lemma FiledUnderOwnId(docs: Collection, k: string)
    requires WellFormed(docs)
    requires k in docs
    ensures k == DocumentId(Decode(docs[k]))
  {
  }

  lemma UpsertIdempotent(docs: Collection, t: FirestoreTitle)
    ensures Upsert(Upsert(docs, t), t) == Upsert(docs, t)
  {
  }

  lemma RemoveIdempotent(docs: Collection, t: FirestoreTitle)
    ensures Remove(Remove(docs, t), t) == Remove(docs, t)
  {
  }

  /** Two records with the same user and id share a document: the later save replaces the
      earlier one whatever else differs between them. */
  lemma SameKeyOverwrites(docs: Collection, a: FirestoreTitle, b: FirestoreTitle)
    requires a.userId == b.userId && a.id == b.id
    ensures Upsert(Upsert(docs, a), b) == Upsert(docs, b)
  {
  }

  /** Deleting a record with a different user or id leaves a saved record in place. */
  lemma RemoveOtherKeepsSaved(docs: Collection, saved: FirestoreTitle, other: FirestoreTitle)
    requires saved.userId != other.userId || saved.id != other.id
    ensures DocumentId(saved) in Remove(Upsert(docs, saved), other)
    ensures Remove(Upsert(docs, saved), other)[DocumentId(saved)] == Encode(saved)
  {
    DocumentIdInjective(saved, other);
  }

  lemma UpsertPreservesWellFormed(docs: Collection, t: FirestoreTitle)
    requires WellFormed(docs)
    ensures WellFormed(Upsert(docs, t))
  {
    var r := Upsert(docs, t);
    forall k | k in r
      ensures r[k] == Encode(Decode(r[k])) && k == DocumentId(Decode(r[k]))
    {
      if k == DocumentId(t) {
        EncodeIgnoresNil(t);
      }
    }
  }

  lemma RemovePreservesWellFormed(docs: Collection, t: FirestoreTitle)
    requires WellFormed(docs)
    ensures WellFormed(Remove(docs, t))
  {
  }

  /** Saving a record and then fetching its user's records yields it, with nil strings as "". */
  lemma SavedRecordIsFetched(docs: Collection, t: FirestoreTitle, ids: seq<string>)
    requires IsEnumeration(ids, Matching(Upsert(docs, t), t.userId))
    ensures WithEmptyForNil(t) in DecodeAll(Upsert(docs, t), ids)
  {
    var r := Upsert(docs, t);
    assert DocumentId(t) in Matching(r, t.userId);
    var i :| 0 <= i < |ids| && ids[i] == DocumentId(t);
    assert DecodeAll(r, ids)[i] == WithEmptyForNil(t);
  }

  /** After a delete no fetch lists the deleted document id. */
  lemma DeletedKeyNotFetched(docs: Collection, t: FirestoreTitle, userId: string, ids: seq<string>)
    requires IsEnumeration(ids, Matching(Remove(docs, t), userId))
    ensures DocumentId(t) !in ids
  {
  }

  /** In a well-formed store, after a delete no fetched record has the deleted record's user and id. */
  lemma DeletedTitleNotFetched(docs: Collection, t: FirestoreTitle, userId: string, ids: seq<string>)
    requires WellFormed(docs)
    requires IsEnumeration(ids, Matching(Remove(docs, t), userId))
    ensures forall f :: f in DecodeAll(Remove(docs, t), ids) ==> f.userId != t.userId || f.id != t.id
  {
    var r := Remove(docs, t);
    var ts := DecodeAll(r, ids);
    forall f | f in ts
      ensures f.userId != t.userId || f.id != t.id
    {
      var i :| 0 <= i < |ts| && ts[i] == f;
      var k := ids[i];
      assert k in r && k != DocumentId(t);
      FiledUnderOwnId(docs, k);
      assert k == DocumentId(f);
      DocumentIdInjective(f, t);
    }
  }

  /** In a well-formed store a fetch never yields the same record twice. */
  lemma FetchHasNoDuplicates(docs: Collection, userId: string, ids: seq<string>)
    requires WellFormed(docs)
    requires IsEnumeration(ids, Matching(docs, userId))
    ensures forall i, j :: 0 <= i < j < |ids| ==> DecodeAll(docs, ids)[i] != DecodeAll(docs, ids)[j]
  {
    var ts := DecodeAll(docs, ids);
    forall i, j | 0 <= i < j < |ids|
      ensures ts[i] != ts[j]
    {
      assert ids[i] == DocumentId(ts[i]) && ids[j] == DocumentId(ts[j]);
    }
  }

  /** The client of the remote collection. Each call takes, as `backendOk`, whether the
      backend reports success; on failure nothing is written. */
  class DataPersistenceManager {
    var documents: Collection

    constructor (initial: Collection)
      ensures documents == initial
    {
      documents := initial;
    }

    /** Saves `model` under its document id, overwriting any document already there. */
    method DownloadTitleWith(model: FirestoreTitle, backendOk: bool) returns (r: Result<(), DatabaseError>)
      modifies this
      ensures backendOk ==> r == Success(()) && documents == Upsert(old(documents), model)
      ensures !backendOk ==> r == Failure(FailedToSaveData) && documents == old(documents)
    {
      var documentId := DocumentId(model);
      var data := Encode(model);
      if backendOk {
        documents := documents[documentId := data];
        r := Success(());
      } else {
        r := Failure(FailedToSaveData);
      }
    }

    /** The records of every document whose `userId` field is `userId`, one per document, in
        the order the backend delivers them (`snapshot`, the delivered document ids). */
    method FetchingTitlesFromDatabase(userId: string, backendOk: bool)
      returns (r: Result<seq<FirestoreTitle>, DatabaseError>, ghost snapshot: seq<string>)
      ensures !backendOk ==> r == Failure(FailedToFetchData)
      ensures backendOk ==> r.Success? && IsEnumeration(snapshot, Matching(documents, userId))
      ensures backendOk ==> r.value == DecodeAll(documents, snapshot)
      ensures r.Success? ==> forall t :: t in r.value ==> t.userId == userId
    {
      snapshot := [];
      if !backendOk {
        return Failure(FailedToFetchData), snapshot;
      }
      var pending := Matching(documents, userId);
      var titles: seq<FirestoreTitle> := [];
      while pending != {}
        invariant pending <= Matching(documents, userId)
        invariant forall i :: 0 <= i < |snapshot| ==> snapshot[i] in Matching(documents, userId) && snapshot[i] !in pending
        invariant forall k :: k in Matching(documents, userId) ==> k in pending || k in snapshot
        invariant forall i, j :: 0 <= i < j < |snapshot| ==> snapshot[i] != snapshot[j]
        invariant titles == DecodeAll(documents, snapshot)
        decreases pending
      {
        var k :| k in pending;
        snapshot := snapshot + [k];
        titles := titles + [Decode(documents[k])];
        pending := pending - {k};
      }
      r := Success(titles);
    }

    /** Deletes the document `model` was saved under; deleting a missing document succeeds. */
    method DeleteTitleWith(model: FirestoreTitle, backendOk: bool) returns (r: Result<(), DatabaseError>)
      modifies this
      ensures backendOk ==> r == Success(()) && documents == Remove(old(documents), model)
      ensures !backendOk ==> r == Failure(FailedToDeleteData) && documents == old(documents)
    {
      var documentId := DocumentId(model);
      if backendOk {
        documents := documents - {documentId};
        r := Success(());
      } else {
        r := Failure(FailedToDeleteData);
      }
    }
  }
}
