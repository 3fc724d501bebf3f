/**
  The web activity used during pre-provisioning: it shows one start URL and
  lets link clicks load only URLs that start with an allowed base.
 */
module WebActivity {
  import opened Common

  /** Intent extra keys. */
  const EXTRA_URL: string := "extra_url"
  const EXTRA_ALLOWED_URL_BASE: string := "extra_allowed_url_base"

  /** An intent's string extras; a key put with a null value maps to `None`. */
  datatype Intent = Intent(extras: map<string, Option<string>>)

  function PutExtra(i: Intent, key: string, value: Option<string>): (r: Intent)
    ensures GetStringExtra(r, key) == value
    ensures forall k :: k != key ==> GetStringExtra(r, k) == GetStringExtra(i, k)
  {
    Intent(i.extras[key := value])
  }

  /** `getStringExtra`: null when the key is absent or was put with null. */
  function GetStringExtra(i: Intent, key: string): Option<string> {
    if key in i.extras then i.extras[key] else None
  }

  /** `createIntent`: the start URL and the allowed base under their extras. */
  function CreateIntent(url: Option<string>, allowedUrlBase: Option<string>): (i: Intent)
    ensures GetStringExtra(i, EXTRA_URL) == url
    ensures GetStringExtra(i, EXTRA_ALLOWED_URL_BASE) == allowedUrlBase
  {
    PutExtra(PutExtra(Intent(map[]), EXTRA_URL, url), EXTRA_ALLOWED_URL_BASE, allowedUrlBase)
  }

  /** `String.startsWith`, compared character by character. */
  function StartsWith(s: string, prefix: string): (b: bool)
    ensures b <==> prefix <= s
    decreases |prefix|
  {
    if |prefix| == 0 then true
    else if |s| == 0 || s[0] != prefix[0] then false
    else StartsWith(s[1..], prefix[1..])
  }

  /** What the activity shows: nothing (it finished), or a page with the filter it installed. */
  datatype Screen = Finished | Showing(page: string, allowedUrlBase: Option<string>)

  /** `onCreate`: finish without loading when no start URL is given; otherwise load it and install the filter. */
  function OnCreate(i: Intent): (v: Screen)
    ensures v.Finished? <==> GetStringExtra(i, EXTRA_URL).None?
    ensures v.Showing? ==>
      && Some(v.page) == GetStringExtra(i, EXTRA_URL)
      && v.allowedUrlBase == GetStringExtra(i, EXTRA_ALLOWED_URL_BASE)
  {
    var url := GetStringExtra(i, EXTRA_URL);
    if url.None? then Finished
    else Showing(url.value, GetStringExtra(i, EXTRA_ALLOWED_URL_BASE))
  }

  /** The decision of `shouldOverrideUrlLoading`: which URL, if any, is loaded, and whether the view is overridden. */
  datatype Decision = Decision(load: Option<string>, overridden: bool)

  /**
    `shouldOverrideUrlLoading`: the request is always overridden, so the web
    view never navigates by itself; the URL is loaded only when an allowed
    base was given and the URL starts with it.
   */
  function ShouldOverrideUrlLoading(allowedUrlBase: Option<string>, url: string): (d: Decision)
    ensures d.overridden
    ensures d.load.Some? <==> allowedUrlBase.Some? && allowedUrlBase.value <= url
    ensures d.load.Some? ==> d.load.value == url
  {
    var load := allowedUrlBase.Some? && StartsWith(url, allowedUrlBase.value);
    Decision(if load then Some(url) else None, true)
  }

  /** A link click on the screen. */
  function Click(v: Screen, url: string): (v': Screen)
    ensures v'.Finished? <==> v.Finished?
    ensures v'.Showing? ==> v'.allowedUrlBase == v.allowedUrlBase
  {
    match v
    case Finished => Finished
    case Showing(page, base) =>
      var d := ShouldOverrideUrlLoading(base, url);
      if d.load.Some? then Showing(d.load.value, base) else v
  }

  function Clicks(v: Screen, urls: seq<string>): Screen
    decreases |urls|
  {
    if |urls| == 0 then v else Clicks(Click(v, urls[0]), urls[1..])
  }

  /**
    After any clicks, the page shown is the page shown before them or a URL
    starting with the allowed base; without a base no click loads anything.
   */
  lemma {:induction false} ClicksStayUnderBase(v: Screen, urls: seq<string>)
    requires v.Showing?
    ensures Clicks(v, urls).Showing?
    ensures Clicks(v, urls).allowedUrlBase == v.allowedUrlBase
    ensures Clicks(v, urls).page == v.page || (v.allowedUrlBase.Some? && v.allowedUrlBase.value <= Clicks(v, urls).page)
    ensures v.allowedUrlBase.None? ==> Clicks(v, urls) == v
    decreases |urls|
  {
    if |urls| > 0 {
      ClicksStayUnderBase(Click(v, urls[0]), urls[1..]);
    }
  }

  /**
    `createIntent` and `onCreate` agree on the extras: the activity started
    from `CreateIntent(url, base)` shows `url` under `base`, or finishes when
    `url` is null.
   */
  lemma CreateThenOpen(url: Option<string>, allowedUrlBase: Option<string>)
    ensures OnCreate(CreateIntent(url, allowedUrlBase)) ==
      if url.None? then Finished else Showing(url.value, allowedUrlBase)
  {
  }
}
