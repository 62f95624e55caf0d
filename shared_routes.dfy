/**
 * The shared API description: `buildUrl`, which fills `:key` placeholders
 * of a path template, and the input accepted by the status update.
 */
module SharedRoutes {
  import opened Wrappers
  import opened Text
  import opened Schema

  /** A parameter value: `string | number` (integers only here). */
  datatype ParamValue = Str(text: string) | Num(number: int)

  /** `String(value)`. */
  function ParamText(v: ParamValue): (s: string)
    ensures v.Str? ==> s == v.text
    ensures v.Num? ==> s == IntText(v.number)
  {
    match v
    case Str(t) => t
    case Num(n) => IntText(n)
  }

  function Placeholder(key: string): (p: string)
    ensures |p| == |key| + 1 && p[0] == ':' && p[1..] == key
  {
    ":" + key
  }

  /**
   * One step of the loop: the first occurrence of `:key`, and only that one,
   * becomes the value's text; without an occurrence the url stays.
   */
  function ApplyParam(url: string, key: string, value: ParamValue): (r: string)
    ensures !Contains(url, Placeholder(key)) ==> r == url
    ensures Contains(url, Placeholder(key)) ==>
      var i := IndexOf(url, Placeholder(key)).value;
      && (forall j :: 0 <= j < i ==> !Occurs(url, Placeholder(key), j))
      && url == url[..i] + Placeholder(key) + url[i + |key| + 1..]
      && r == url[..i] + ParamText(value) + url[i + |key| + 1..]
  {
    if Contains(url, Placeholder(key)) then
      var i := IndexOf(url, Placeholder(key)).value;
      assert url == url[..i] + url[i..i + |key| + 1] + url[i + |key| + 1..];
      ReplaceFirst(url, Placeholder(key), ParamText(value))
    else url
  }

  /** The parameters applied in order, each to the result of the ones before it. */
  function ApplyParams(url: string, entries: seq<(string, ParamValue)>): string
    decreases |entries|
  {
    if entries == [] then url
    else
      var last := entries[|entries| - 1];
      ApplyParam(ApplyParams(url, entries[..|entries| - 1]), last.0, last.1)
  }

  /** `buildUrl(path, params)`; the entries are `Object.entries(params)` in order. */
  method BuildUrl(path: string, params: Option<seq<(string, ParamValue)>>) returns (url: string)
    ensures params.None? ==> url == path
    ensures params.Some? ==> url == ApplyParams(path, params.value)
  {
    url := path;
    if params.Some? {
      var entries := params.value;
      for k := 0 to |entries|
        invariant url == ApplyParams(path, entries[..k])
      {
        var (key, value) := entries[k];
        assert entries[..k + 1][..k] == entries[..k];
        if Contains(url, Placeholder(key)) {
          url := ReplaceFirst(url, Placeholder(key), ParamText(value));
        }
      }
      assert entries[..|entries|] == entries;
    }
  }

  /** Applying two lists of parameters one after the other is applying their concatenation. */
  lemma {:induction false} ApplyParamsAppend(url: string, a: seq<(string, ParamValue)>, b: seq<(string, ParamValue)>)
    ensures ApplyParams(url, a + b) == ApplyParams(ApplyParams(url, a), b)
    decreases |b|
  {
    if b == [] {
      assert a + b == a;
    } else {
      var front := b[..|b| - 1];
      assert (a + b)[..|a + b| - 1] == a + front;
      assert (a + b)[|a + b| - 1] == b[|b| - 1];
      ApplyParamsAppend(url, a, front);
    }
  }

  /** A parameter whose placeholder does not occur anywhere on the way leaves the url as it is. */
  lemma {:induction false} ApplyParamsAbsent(url: string, entries: seq<(string, ParamValue)>)
    requires forall k :: 0 <= k < |entries| ==> !Contains(url, Placeholder(entries[k].0))
    ensures ApplyParams(url, entries) == url
    decreases |entries|
  {
    if entries != [] {
      var front := entries[..|entries| - 1];
      assert forall k :: 0 <= k < |front| ==> front[k] == entries[k];
      ApplyParamsAbsent(url, front);
    }
  }

  /** A placeholder found at `i` is the first one when its leading ':' appears nowhere before `i`. */
  lemma FirstOccurrence(s: string, pat: string, i: nat)
    requires Occurs(s, pat, i) && |pat| > 0
    requires forall j :: 0 <= j < i ==> s[j] != pat[0]
    ensures IndexOf(s, pat) == Some(i)
  {
    var r := IndexOf(s, pat);
    assert r.Some?;
    var k := r.value;
    assert s[k] == pat[0] by {
      assert s[k..k + |pat|][0] == s[k];
    }
  }

  /** A template `pre + ":key" + suf` whose prefix holds no ':' has its placeholder filled in place. */
  lemma FillPlaceholder(pre: string, key: string, suf: string, v: ParamValue)
    requires ':' !in pre
    ensures ApplyParams(pre + Placeholder(key) + suf, [(key, v)]) == pre + ParamText(v) + suf
  {
    var url := pre + Placeholder(key) + suf;
    var p := Placeholder(key);
    assert [(key, v)][..0] == [];
    assert url[|pre|..|pre| + |p|] == p;
    forall j | 0 <= j < |pre| ensures url[j] != p[0] {
      assert url[j] == pre[j];
    }
    FirstOccurrence(url, p, |pre|);
    assert url[..|pre|] == pre;
    assert url[|pre| + |p|..] == suf;
  }

  const UpdateStatusPath: string := "/api/appointments/:id/status"

  /** The url the dashboard requests to update appointment `id`. */
  lemma UpdateStatusUrl(id: nat)
    ensures ApplyParams(UpdateStatusPath, [("id", Num(id))]) == "/api/appointments/" + NatText(id) + "/status"
  {
    var pre := "/api/appointments/";
    assert ':' !in pre;
    assert UpdateStatusPath == pre + Placeholder("id") + "/status";
    FillPlaceholder(pre, "id", "/status", Num(id));
  }

  /** The status update a client may request: "accepted", "rejected" or "completed", and an optional visit time. */
  datatype StatusUpdate = StatusUpdate(status: AppointmentStatus, visitTime: Option<string>)

  function ParseStatusUpdate(status: string, visitTime: Option<string>): (r: Option<StatusUpdate>)
    ensures r.Some? <==> status in {"accepted", "rejected", "completed"}
    ensures r.Some? ==> StatusText(r.value.status) == status && r.value.status != Pending
    ensures r.Some? ==> r.value.visitTime == visitTime
  {
    match ParseStatus(status)
    case Some(s) => if s == Pending then None else Some(StatusUpdate(s, visitTime))
    case None => None
  }
}
