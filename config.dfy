/**
  The app's server configuration (config.ts): the `xampp` record that
  names the server root and an optional path, and the helper that joins
  them into the address the app opens first.
 */
module Config {

  datatype Option<T> = None | Some(value: T)

  /** The `config.xampp` record. `path` may be absent. */
  datatype Xampp = Xampp(url: string, path: Option<string>)

  /** The values the repository ships with. */
  const Shipped: Xampp := Xampp("https://myaou.atract.me", Some("/index.php"))

  /** `config.xampp.path || ''`: an absent path reads as the empty string
      (an empty path is falsy and also gives the empty string). */
  function PathOrEmpty(x: Xampp): string
  {
    match x.path
    case None => ""
    case Some(p) => p
  }

  /** `getXamppUrl()`: the server root followed by the path, with no
      encoding, separator or normalisation in between. */
  function GetXamppUrl(x: Xampp): (r: string)
    ensures |r| == |x.url| + |PathOrEmpty(x)|
    ensures r[..|x.url|] == x.url
    ensures r[|x.url|..] == PathOrEmpty(x)
  {
    x.url + PathOrEmpty(x)
  }

  /** Without a path (absent or empty) the address is the root unchanged. */
  lemma NoPathGivesBareUrl(x: Xampp)
    requires x.path == None || x.path == Some("")
    ensures GetXamppUrl(x) == x.url
  {
  }

  /** With the shipped values the first address is the site's index page. */
  lemma ShippedXamppUrl()
    ensures GetXamppUrl(Shipped) == "https://myaou.atract.me/index.php"
  {
  }
}
