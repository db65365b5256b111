/** src/Exceptions/HttpException.php: a failed HTTP call and its response. */
module HttpErrors {
  import opened Text

  datatype HttpException<R> = HttpException(response: R, message: string, code: int) {
    /** `getResponse()`. */
    function GetResponse(): (r: R)
      ensures r == response
    {
      response
    }
  }

  /** The constructor: message defaults to "" and code to 0. */
  function Construct<R>(response: R, message: string := "", code: int := 0): (e: HttpException<R>)
    ensures e.GetResponse() == response && e.message == message && e.code == code
  {
    HttpException(response, message, code)
  }

  const MessagePrefix: string := "Http request to "
  const StatusPart: string := " failed with a status of "
  const DetailPart: string := " and error message: "

  /** The sprintf format of `HttpException::new`. */
  function FormatMessage(url: string, status: int, message: string): (s: string)
    ensures |s| >= |MessagePrefix| + |url| + |message|
    ensures s[..|MessagePrefix|] == MessagePrefix
    ensures s[|MessagePrefix|..|MessagePrefix| + |url|] == url
    ensures s[|s| - |message|..] == message
  {
    var head := MessagePrefix + url + StatusPart;
    var s := head + (IntToString(status) + (DetailPart + message));
    assert s[..|head|] == head;
    assert s[|s| - |message|..] == message;
    s
  }

  /** `HttpException::new($url, $status, $message, $response)`. */
  function New<R>(url: string, status: int, message: string, response: R): (e: HttpException<R>)
    ensures e.GetResponse() == response && e.code == 0
    ensures e.message == FormatMessage(url, status, message)
  {
    Construct(response, FormatMessage(url, status, message))
  }

  /** The digits of a status cannot run into the text after it. */
  lemma {:induction false} SplitAtSpace(a: string, b: string, c: string, d: string)
    requires forall k :: 0 <= k < |a| ==> IsDigit(a[k]) || a[k] == '-'
    requires forall k :: 0 <= k < |c| ==> IsDigit(c[k]) || c[k] == '-'
    requires |b| > 0 && b[0] == ' ' && |d| > 0 && d[0] == ' '
    requires a + b == c + d
    ensures a == c && b == d
  {
    assert a == (a + b)[..|a|] && c == (c + d)[..|c|];
    assert b == (a + b)[|a|..] && d == (c + d)[|c|..];
  }

  /** For one url, the message determines the status and the provider's message. */
  lemma MessageDeterminesDetails(url: string, s1: int, m1: string, s2: int, m2: string)
    requires FormatMessage(url, s1, m1) == FormatMessage(url, s2, m2)
    ensures s1 == s2 && m1 == m2
  {
    var head := MessagePrefix + url + StatusPart;
    var t1 := IntToString(s1) + (DetailPart + m1);
    var t2 := IntToString(s2) + (DetailPart + m2);
    assert t1 == (head + t1)[|head|..];
    assert t2 == (head + t2)[|head|..];
    SplitAtSpace(IntToString(s1), DetailPart + m1, IntToString(s2), DetailPart + m2);
    IntToStringInjective(s1, s2);
    assert m1 == (DetailPart + m1)[|DetailPart|..];
    assert m2 == (DetailPart + m2)[|DetailPart|..];
  }
}
