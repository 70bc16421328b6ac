/** `getCookie`: reading one cookie out of `document.cookie`. */
module Cookies {
  import opened CheckoutTypes
  import opened Text

  /** What `getCookie` yields when no entry has the name. */
  const MissingCookie: string := "0"

  /** The scan over the `;`-separated entries: the first entry whose key,
      trimmed, is `name` gives its value, the piece after the first `=`
      and before any second one; an entry without `=` gives `undefined`
      (`None`). */
  function FindCookie(entries: seq<string>, name: string): (v: Option<string>)
    ensures v.Some? && v.value != MissingCookie ==>
              exists k :: 0 <= k < |entries| && Trim(Split(entries[k], '=')[0]) == name
    decreases |entries|
  {
    if entries == [] then Some(MissingCookie)
    else
      var parts := Split(entries[0], '=');
      if Trim(parts[0]) == name then
        (if |parts| > 1 then Some(parts[1]) else None)
      else
        var v := FindCookie(entries[1..], name);
        assert forall k :: 1 <= k < |entries| ==> entries[k] == entries[1..][k - 1];
        v
  }

  /** `getCookie(name)` over the cookie text. */
  function GetCookie(cookie: string, name: string): Option<string> {
    FindCookie(Split(cookie, ';'), name)
  }

  /** A value read from the cookie text holds neither separator. */
  lemma {:induction false} CookieValueIsBare(entries: seq<string>, name: string)
    requires forall k :: 0 <= k < |entries| ==> Free(entries[k], ';')
    requires FindCookie(entries, name).Some?
    ensures Free(FindCookie(entries, name).value, '=')
    ensures Free(FindCookie(entries, name).value, ';')
    decreases |entries|
  {
    if entries != [] {
      var parts := Split(entries[0], '=');
      if Trim(parts[0]) == name {
        SplitJoin(entries[0], '=');
        if |parts| > 1 {
          JoinPieceIsPart(parts, 1, '=');
        }
      } else {
        CookieValueIsBare(entries[1..], name);
      }
    } else {
      assert FindCookie(entries, name).value == MissingCookie;
    }
  }

  /** A piece of a join is a contiguous part of it, so it keeps whatever
      character the joined text lacks. */
  lemma {:induction false} JoinPieceIsPart(parts: seq<string>, k: nat, sep: char)
    requires k < |parts|
    requires Free(Join(parts, sep), ';')
    ensures Free(parts[k], ';')
    decreases |parts|
  {
    if |parts| > 1 {
      var whole := Join(parts, sep);
      assert whole == parts[0] + [sep] + Join(parts[1..], sep);
      if k == 0 {
        assert forall i :: 0 <= i < |parts[0]| ==> parts[0][i] == whole[i];
      } else {
        var rest := Join(parts[1..], sep);
        assert forall i :: 0 <= i < |rest| ==> rest[i] == whole[|parts[0]| + 1 + i];
        JoinPieceIsPart(parts[1..], k - 1, sep);
      }
    }
  }

  /** One `key=value` entry of the cookie text. */
  datatype Entry = Entry(key: string, value: string)

  predicate Bare(s: string) {
    Free(s, ';') && Free(s, '=')
  }

  function Render(e: Entry): string {
    e.key + "=" + e.value
  }

  function RenderAll(es: seq<Entry>): (r: seq<string>)
    ensures |r| == |es|
    ensures forall k :: 0 <= k < |es| ==> r[k] == Render(es[k])
  {
    seq(|es|, k requires 0 <= k < |es| => Render(es[k]))
  }

  /** The cookie text a browser would build from the entries. */
  function CookieText(es: seq<Entry>): string {
    Join(RenderAll(es), ';')
  }

  /** The first entry whose trimmed key is `name`, if any. */
  function FirstNamed(es: seq<Entry>, name: string): (k: Option<nat>)
    ensures k.Some? ==> k.value < |es| && Trim(es[k.value].key) == name
    ensures k.None? <==> forall j :: 0 <= j < |es| ==> Trim(es[j].key) != name
    decreases |es|
  {
    if es == [] then None
    else if Trim(es[0].key) == name then Some(0)
    else
      var k := FirstNamed(es[1..], name);
      assert forall j :: 1 <= j < |es| ==> es[j] == es[1..][j - 1];
      if k.None? then None else Some(k.value + 1)
  }

  /** Reading back a cookie text built from bare entries: the value of the
      first entry named `name`, or `"0"` when none is. */
  lemma CookieRoundTrip(es: seq<Entry>, name: string)
    requires es != []
    requires forall k :: 0 <= k < |es| ==> Bare(es[k].key) && Bare(es[k].value)
    ensures FirstNamed(es, name).Some? ==>
              GetCookie(CookieText(es), name) == Some(es[FirstNamed(es, name).value].value)
    ensures FirstNamed(es, name).None? ==> GetCookie(CookieText(es), name) == Some(MissingCookie)
  {
    var rendered := RenderAll(es);
    forall k | 0 <= k < |rendered| ensures Free(rendered[k], ';') {
      assert rendered[k] == es[k].key + ['='] + es[k].value;
    }
    JoinSplit(rendered, ';');
    FindOverRendered(es, name);
  }

  lemma {:induction false} FindOverRendered(es: seq<Entry>, name: string)
    requires forall k :: 0 <= k < |es| ==> Bare(es[k].key) && Bare(es[k].value)
    ensures FirstNamed(es, name).Some? ==>
              FindCookie(RenderAll(es), name) == Some(es[FirstNamed(es, name).value].value)
    ensures FirstNamed(es, name).None? ==> FindCookie(RenderAll(es), name) == Some(MissingCookie)
    decreases |es|
  {
    if es != [] {
      var e := es[0];
      assert RenderAll(es)[0] == e.key + ['='] + e.value;
      JoinSplit([e.key, e.value], '=');
      assert Join([e.key, e.value], '=') == e.key + ['='] + Join([e.value], '=');
      assert Split(RenderAll(es)[0], '=') == [e.key, e.value];
      if Trim(e.key) != name {
        FindOverRendered(es[1..], name);
        assert RenderAll(es)[1..] == RenderAll(es[1..]);
      }
    }
  }
}
