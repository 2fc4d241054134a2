/**
 * The `data:` URI envelope of an uploaded image (RFC 2397, section 3):
 * `data:<mediatype>;base64,<payload>`. The app strips the envelope with
 * JavaScript's `uri.split(',')[1]` and builds one with a template string.
 */
module DataUri {

  import opened Wrappers

  /** JavaScript's `s.split(',')`: the comma-free fields of `s`, in order. */
  function SplitOnComma(s: string): (fields: seq<string>)
    ensures |fields| >= 1
    ensures forall i :: 0 <= i < |fields| ==> ',' !in fields[i]
    ensures JoinWithComma(fields) == s
    decreases |s|
  {
    if s == [] then [""]
    else
      var rest := SplitOnComma(s[1..]);
      if s[0] == ',' then
        assert [s[0]] + s[1..] == s;
        [""] + rest
      else
        var first := [s[0]] + rest[0];
        assert ',' !in first;
        assert JoinWithComma([first] + rest[1..]) == [s[0]] + JoinWithComma(rest) by {
          if |rest| > 1 {
            assert ([first] + rest[1..])[1..] == rest[1..];
          }
        }
        assert [s[0]] + s[1..] == s;
        [first] + rest[1..]
  }

  /** JavaScript's `fields.join(',')`. */
  function JoinWithComma(fields: seq<string>): string
    requires |fields| >= 1
  {
    if |fields| == 1 then fields[0] else fields[0] + "," + JoinWithComma(fields[1..])
  }

  /** Splitting at the first comma: a comma-free field, then the fields of the rest. */
  lemma {:induction false} SplitAfterField(field: string, rest: string)
    requires ',' !in field
    ensures SplitOnComma(field + "," + rest) == [field] + SplitOnComma(rest)
    decreases |field|
  {
    if field == [] {
      assert field + "," + rest == "," + rest;
      assert ("," + rest)[1..] == rest;
    } else {
      var s := field + "," + rest;
      assert s[0] == field[0];
      assert s[1..] == field[1..] + "," + rest;
      SplitAfterField(field[1..], rest);
      assert [field[0]] + field[1..] == field;
    }
  }

  /** A string without commas is a single field. */
  lemma {:induction false} SplitWithoutComma(s: string)
    requires ',' !in s
    ensures SplitOnComma(s) == [s]
    decreases |s|
  {
    if s != [] {
      SplitWithoutComma(s[1..]);
      assert [s[0]] + s[1..] == s;
    }
  }

  /** Splitting undoes joining comma-free fields: the two are inverse. */
  lemma {:induction false} SplitJoin(fields: seq<string>)
    requires |fields| >= 1
    requires forall i :: 0 <= i < |fields| ==> ',' !in fields[i]
    ensures SplitOnComma(JoinWithComma(fields)) == fields
    decreases |fields|
  {
    if |fields| == 1 {
      SplitWithoutComma(fields[0]);
    } else {
      SplitJoin(fields[1..]);
      SplitAfterField(fields[0], JoinWithComma(fields[1..]));
      assert [fields[0]] + fields[1..] == fields;
    }
  }

  /** `uri.split(',')[1]`: `None` stands for the `undefined` of a URI without a comma. */
  function StripEnvelope(uri: string): (payload: Option<string>)
    ensures payload.None? <==> ',' !in uri
    ensures payload.Some? ==> ',' !in payload.value
  {
    var fields := SplitOnComma(uri);
    if |fields| >= 2 then
      assert uri[|fields[0]|] == ',' by {
        assert uri == fields[0] + "," + JoinWithComma(fields[1..]);
      }
      Some(fields[1])
    else
      assert uri == fields[0];
      None
  }

  /**
   * `uri` is `pre,payload` followed by nothing or by `,...`, with no comma in
   * `pre` or `payload`: `payload` is the text between the first comma and the next.
   */
  ghost predicate SecondField(uri: string, pre: string, payload: string, post: string)
  {
    && uri == pre + "," + payload + post
    && ',' !in pre
    && ',' !in payload
    && (post == [] || post[0] == ',')
  }

  /** Whatever StripEnvelope returns is the text between the first and the next comma. */
  lemma StripEnvelopeSound(uri: string)
    requires StripEnvelope(uri).Some?
    ensures exists pre, post :: SecondField(uri, pre, StripEnvelope(uri).value, post)
  {
    var fields := SplitOnComma(uri);
    var post := if |fields| == 2 then "" else "," + JoinWithComma(fields[2..]);
    assert JoinWithComma(fields[1..]) == fields[1] + post by {
      if |fields| > 2 {
        assert fields[1..][1..] == fields[2..];
      }
    }
    assert uri == fields[0] + "," + fields[1] + post;
    assert SecondField(uri, fields[0], fields[1], post);
  }

  /** Conversely, the text between the first and the next comma is what StripEnvelope returns. */
  lemma StripEnvelopeComplete(uri: string, pre: string, payload: string, post: string)
    requires SecondField(uri, pre, payload, post)
    ensures StripEnvelope(uri) == Some(payload)
  {
    assert uri == pre + "," + (payload + post);
    SplitAfterField(pre, payload + post);
    if post == [] {
      assert payload + post == payload;
      SplitWithoutComma(payload);
    } else {
      assert payload + post == payload + "," + post[1..];
      SplitAfterField(payload, post[1..]);
    }
  }

  /** The envelope the app puts around a generated image (VibeCodeApp.jsx:168). */
  const PngHeader: string := "data:image/png;base64"

  function PngDataUri(payload: string): string
  {
    PngHeader + "," + payload
  }

  /** Stripping a built URI gives back its payload exactly when the payload has no comma. */
  lemma StripPngDataUri(payload: string)
    ensures StripEnvelope(PngDataUri(payload)) == Some(payload) <==> ',' !in payload
  {
    SplitAfterField(PngHeader, payload);
    if ',' !in payload {
      SplitWithoutComma(payload);
    }
  }

  /** The base64 alphabet of RFC 4648, section 4, with its padding character. */
  predicate IsBase64Char(c: char)
  {
    ('A' <= c <= 'Z') || ('a' <= c <= 'z') || ('0' <= c <= '9') || c == '+' || c == '/' || c == '='
  }

  predicate IsBase64(s: string)
  {
    forall i :: 0 <= i < |s| ==> IsBase64Char(s[i])
  }

  /** Base64 text never holds a comma, so its envelope always round-trips. */
  lemma Base64RoundTrip(payload: string)
    requires IsBase64(payload)
    ensures StripEnvelope(PngDataUri(payload)) == Some(payload)
  {
    assert ',' !in payload;
    StripPngDataUri(payload);
  }

  /** An upload of any image type yields its base64 payload after stripping. */
  lemma StripUploadedUri(mediaType: string, payload: string)
    requires ',' !in mediaType
    requires IsBase64(payload)
    ensures StripEnvelope("data:" + mediaType + ";base64," + payload) == Some(payload)
  {
    var pre := "data:" + mediaType + ";base64";
    assert ',' !in pre;
    assert ',' !in payload;
    assert "data:" + mediaType + ";base64," + payload == pre + "," + payload + "";
    StripEnvelopeComplete("data:" + mediaType + ";base64," + payload, pre, payload, "");
  }
}
