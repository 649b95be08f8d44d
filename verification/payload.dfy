/**
 * The callback payloads the handler writes into the back buttons of the
 * progress confirmation, and a reading of them into the query commands by the
 * slash-delimited formats `/{kitsu_id}/detail/{anime_id}/` and
 * `/{kitsu_id}/offset/{offset}/`, every slot an `i64` in decimal. The format
 * has no escaping, so ids that go into a payload must not contain '/'.
 */
module Payload {
  import opened Wrappers
  import opened Types
  import opened Decimal

  /** The pieces of `s` between '/' characters, in order; `s` with no '/' is one piece. */
  function Segments(s: string): (r: seq<string>)
    ensures |r| >= 1
    decreases |s|
  {
    if |s| == 0 then [""]
    else
      var rest := Segments(s[1..]);
      if s[0] == '/' then [""] + rest else [[s[0]] + rest[0]] + rest[1..]
  }

  lemma {:induction false} SegmentsOfPlain(a: string)
    requires '/' !in a
    ensures Segments(a) == [a]
    decreases |a|
  {
    if |a| > 0 {
      SegmentsOfPlain(a[1..]);
      assert [a[0]] + a[1..] == a;
    }
  }

  lemma {:induction false} SegmentsAfterSlash(a: string, b: string)
    requires '/' !in a
    ensures Segments(a + "/" + b) == [a] + Segments(b)
    decreases |a|
  {
    if |a| == 0 {
      assert a + "/" + b == "/" + b;
      assert ("/" + b)[1..] == b;
    } else {
      assert (a + "/" + b)[1..] == a[1..] + "/" + b;
      assert (a + "/" + b)[0] == a[0];
      SegmentsAfterSlash(a[1..], b);
      assert [a[0]] + a[1..] == a;
    }
  }

  /** The payload of the "back to anime" button: `/{kitsu_id}/detail/{anime_id}/`. */
  function DetailPayload(kitsuId: int, animeId: string): string {
    "/" + IntToString(kitsuId) + "/detail/" + animeId + "/"
  }

  /** The payload of the "back to list" button: `/{kitsu_id}/offset/0/`. */
  function FirstPagePayload(kitsuId: int): string {
    "/" + IntToString(kitsuId) + "/offset/0/"
  }

  /** An `i64` slot: decimal digits, optionally signed, whose value fits in 64 bits. */
  function ReadInt64(segment: string): (r: Option<Int64>)
    ensures r.Some? ==> ParseInt(segment) == Some(r.value as int)
  {
    match ParseInt(segment)
    case Some(v) =>
      if -0x8000_0000_0000_0000 <= v < 0x8000_0000_0000_0000 then Some(v as Int64) else None
    case None => None
  }

  /** Reads a `detail` payload into `Detail(kitsu_id, anime_id)`; both slots must be `i64`s. */
  function ReadDetail(p: string): Option<QueryCommand> {
    var s := Segments(p);
    if |s| == 5 && s[0] == "" && s[2] == "detail" && s[4] == "" then
      match (ReadInt64(s[1]), ReadInt64(s[3]))
      case (Some(k), Some(a)) => Some(QueryCommand.Detail(k, a))
      case _ => None
    else None
  }

  /** Reads an `offset` payload into `Offset(kitsu_id, offset)`; both slots must be `i64`s. */
  function ReadOffset(p: string): Option<QueryCommand> {
    var s := Segments(p);
    if |s| == 5 && s[0] == "" && s[2] == "offset" && s[4] == "" then
      match (ReadInt64(s[1]), ReadInt64(s[3]))
      case (Some(k), Some(o)) => Some(QueryCommand.Offset(k, o))
      case _ => None
    else None
  }

  lemma DetailPayloadSegments(kitsuId: int, animeId: string)
    requires '/' !in animeId
    ensures Segments(DetailPayload(kitsuId, animeId)) == ["", IntToString(kitsuId), "detail", animeId, ""]
  {
    var k := IntToString(kitsuId);
    assert DetailPayload(kitsuId, animeId) == "" + "/" + (k + "/" + ("detail" + "/" + (animeId + "/" + "")));
    SegmentsAfterSlash("", k + "/" + ("detail" + "/" + (animeId + "/" + "")));
    SegmentsAfterSlash(k, "detail" + "/" + (animeId + "/" + ""));
    SegmentsAfterSlash("detail", animeId + "/" + "");
    SegmentsAfterSlash(animeId, "");
  }

  lemma FirstPagePayloadSegments(kitsuId: int)
    ensures Segments(FirstPagePayload(kitsuId)) == ["", IntToString(kitsuId), "offset", "0", ""]
  {
    var k := IntToString(kitsuId);
    assert FirstPagePayload(kitsuId) == "" + "/" + (k + "/" + ("offset" + "/" + ("0" + "/" + "")));
    SegmentsAfterSlash("", k + "/" + ("offset" + "/" + ("0" + "/" + "")));
    SegmentsAfterSlash(k, "offset" + "/" + ("0" + "/" + ""));
    SegmentsAfterSlash("offset", "0" + "/" + "");
    SegmentsAfterSlash("0", "");
  }

  /** A printed `i64` reads back as that `i64`. */
  lemma ReadInt64RoundTrip(v: Int64)
    ensures ReadInt64(IntToString(v)) == Some(v)
  {
    IntToStringRoundTrip(v);
  }

  /** A `detail` payload written with a decimal anime id reads back as the `Detail` command it names. */
  lemma DetailPayloadRoundTrip(kitsuId: Int64, animeId: Int64)
    ensures ReadDetail(DetailPayload(kitsuId, IntToString(animeId))) == Some(QueryCommand.Detail(kitsuId, animeId))
  {
    DetailPayloadSegments(kitsuId, IntToString(animeId));
    ReadInt64RoundTrip(kitsuId);
    ReadInt64RoundTrip(animeId);
  }

  /** A `detail` payload whose anime id is not a decimal `i64` is not read back at all. */
  lemma NonNumericAnimeIdIsNotReadBack(kitsuId: Int64, animeId: string)
    requires '/' !in animeId
    requires ParseInt(animeId) == None
    ensures ReadDetail(DetailPayload(kitsuId, animeId)) == None
  {
    DetailPayloadSegments(kitsuId, animeId);
  }

  /** A first-page payload reads back as `Offset(kitsu_id, 0)`. */
  lemma FirstPagePayloadRoundTrip(kitsuId: Int64)
    ensures ReadOffset(FirstPagePayload(kitsuId)) == Some(QueryCommand.Offset(kitsuId, 0))
  {
    FirstPagePayloadSegments(kitsuId);
    ReadInt64RoundTrip(kitsuId);
    ReadInt64RoundTrip(0);
  }

  /** Distinct (kitsu id, anime id) pairs give distinct `detail` payloads. */
  lemma DetailPayloadInjective(k1: int, a1: string, k2: int, a2: string)
    requires '/' !in a1 && '/' !in a2
    requires DetailPayload(k1, a1) == DetailPayload(k2, a2)
    ensures k1 == k2 && a1 == a2
  {
    DetailPayloadSegments(k1, a1);
    DetailPayloadSegments(k2, a2);
    IntToStringInjective(k1, k2);
  }

  /** Without escaping, an anime id holding '/' yields a payload that is not read back. */
  lemma SlashInAnimeIdIsNotReadBack(kitsuId: int)
    ensures ReadDetail(DetailPayload(kitsuId, "1/2")) == None
  {
    var k := IntToString(kitsuId);
    assert DetailPayload(kitsuId, "1/2") == "" + "/" + (k + "/" + ("detail" + "/" + ("1" + "/" + ("2" + "/" + ""))));
    SegmentsAfterSlash("", k + "/" + ("detail" + "/" + ("1" + "/" + ("2" + "/" + ""))));
    SegmentsAfterSlash(k, "detail" + "/" + ("1" + "/" + ("2" + "/" + "")));
    SegmentsAfterSlash("detail", "1" + "/" + ("2" + "/" + ""));
    SegmentsAfterSlash("1", "2" + "/" + "");
    SegmentsAfterSlash("2", "");
  }
}
