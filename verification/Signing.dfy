/** Signed requests: the query of an HTTP request and the login message of a web-socket. The keyed
    digest in its base64 form and the URL encoding are functions about which nothing is assumed. */
module Signing {
  import opened Text
  import opened Calendar
  import opened Json
  import opened Encoder

  // --- timestamps ---

  function DateText(d: Date): string {
    PrintPadded(d.year, 4) + "-" + PrintPadded(d.month, 2) + "-" + PrintPadded(d.day, 2)
  }

  function TimeText(t: Time, colon: string): string {
    PrintPadded(t.hours, 2) + colon + PrintPadded(t.minutes, 2) + colon + PrintPadded(t.seconds, 2)
  }

  function Stamp(m: Moment, colon: string): string { DateText(m.date) + "T" + TimeText(m.time, colon) }

  /** In a message. */
  function Timestamp(now: nat): string { Stamp(MomentOf(now), ":") }

  /** In a signed text. */
  function EncodedTimestamp(now: nat): string { Stamp(MomentOf(now), "%3A") }

  // --- signed texts ---

  function SignedText(key: string, now: nat, query: string): string {
    ("AccessKeyId=" + key + "&") + "SignatureMethod=HmacSHA256&" + "SignatureVersion=2&"
      + ("Timestamp=" + EncodedTimestamp(now)) + query
  }

  function LoginFields(key: string, now: nat, signature: string): seq<Member> {
    [Entry("op", "auth")]
    + [Entry("type", "api"), Entry("AccessKeyId", key), Entry("SignatureMethod", "HmacSHA256")]
    + [Entry("SignatureVersion", "2"), Entry("Timestamp", Timestamp(now)), Entry("Signature", signature)]
  }

  class Crypto {
    const key: string
    const hostname: string
    const sign: string -> string
    const urlEncode: string -> string
    const encodeBuffer: Buffer
    var mac: string

    constructor (key: string, hostname: string, sign: string -> string, urlEncode: string -> string)
      ensures this.key == key && this.hostname == hostname && this.sign == sign && this.urlEncode == urlEncode
      ensures fresh(encodeBuffer)
    {
      this.key := key;
      this.hostname := hostname;
      this.sign := sign;
      this.urlEncode := urlEncode;
      mac := "";
      encodeBuffer := new Buffer();
    }

    method Update(s: string)
      modifies this
      ensures mac == old(mac) + s
    {
      mac := mac + s;
    }

    method AppendSignedText(now: nat, query: string)
      modifies encodeBuffer
      ensures encodeBuffer.text == "?" + SignedText(key, now, query)
    {
      var first, scheme, version := "AccessKeyId=" + key + "&", "SignatureMethod=HmacSHA256&", "SignatureVersion=2&";
      var stamp := "Timestamp=" + Stamp(MomentOf(now), "%3A");
      encodeBuffer.Clear();
      encodeBuffer.Append("?" + first);
      Nothing("?" + first);
      encodeBuffer.Append(scheme);
      Regroup("?", first, scheme);
      encodeBuffer.Append(version);
      Regroup("?", first + scheme, version);
      encodeBuffer.Append(stamp);
      Regroup("?", first + scheme + version, stamp);
      encodeBuffer.Append(query);
      Regroup("?", first + scheme + version + stamp, query);
    }

    method Absorb(path: string, text: string)
      modifies this
      ensures mac == old(mac) + hostname + "\n" + path + "\n" + text
    {
      Update(hostname);
      Update("\n");
      Update(path);
      Update("\n");
      Update(text);
    }

    method CreateQuery(httpMethod: string, path: string, now: nat, query: string) returns (r: string)
      requires path != []
      modifies this, encodeBuffer
      ensures mac == httpMethod + "\n" + hostname + "\n" + path + "\n" + SignedText(key, now, query)
      ensures r == encodeBuffer.text == "?" + SignedText(key, now, query) + ("&Signature=" + urlEncode(sign(mac)))
    {
      AppendSignedText(now, query);
      ghost var signed := SignedText(key, now, query);
      var text := encodeBuffer.text[1..];
      assert text == signed;
      mac := "";
      Update(httpMethod);
      Update("\n");
      assert mac == httpMethod + "\n";
      Absorb(path, text);
      encodeBuffer.Append("&Signature=" + urlEncode(sign(mac)));
      return encodeBuffer.text;
    }

    method CreateWsAuth(path: string, now: nat) returns (r: string)
      modifies this, encodeBuffer
      ensures mac == "GET" + "\n" + hostname + "\n" + path + "\n" + SignedText(key, now, "")
      ensures r == encodeBuffer.text == Render(Obj(LoginFields(key, now, sign(mac))))
    {
      AppendSignedText(now, "");
      ghost var signed := SignedText(key, now, "");
      var text := encodeBuffer.text[1..];
      assert text == signed;
      mac := "";
      Update("GET\n");
      assert mac == "GET" + "\n";
      Absorb(path, text);
      WriteLogin(now, sign(mac));
      return encodeBuffer.text;
    }

    method WriteLogin(now: nat, signature: string)
      modifies encodeBuffer
      ensures encodeBuffer.text == Render(Obj(LoginFields(key, now, signature)))
    {
      encodeBuffer.OpenObject();
      encodeBuffer.First("op", "auth");
      encodeBuffer.Next("type", "api");
      encodeBuffer.Next("AccessKeyId", key);
      encodeBuffer.Next("SignatureMethod", "HmacSHA256");
      ghost var front := encodeBuffer.members;
      Snoc3([Entry("op", "auth")], Entry("type", "api"), Entry("AccessKeyId", key),
        Entry("SignatureMethod", "HmacSHA256"));
      encodeBuffer.Next("SignatureVersion", "2");
      encodeBuffer.Next("Timestamp", Stamp(MomentOf(now), ":"));
      encodeBuffer.Next("Signature", signature);
      Snoc3(front, Entry("SignatureVersion", "2"), Entry("Timestamp", Timestamp(now)), Entry("Signature", signature));
      encodeBuffer.CloseObject();
    }
  }
}
