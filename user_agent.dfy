/** parseUserAgent of the wol dashboard: the platform and the browser named
    by a User-Agent header, each found by the first marker that occurs. */
module UserAgent {
  import opened GoText

  datatype Parsed = Parsed(platform: string, browser: string)

  const Platforms: set<string> := {"Windows", "macOS", "Linux", "iOS", "iPadOS", "Android", "Unknown"}
  const Browsers: set<string> := {"Edge", "Firefox", "Chrome", "Safari", "Opera", "Unknown"}

  /** The platform markers in the order they are tried. */
  predicate AnyPlatformMarker(ua: string) {
    Contains(ua, "Windows") || Contains(ua, "Macintosh") || Contains(ua, "Linux")
    || Contains(ua, "iPhone") || Contains(ua, "iPad") || Contains(ua, "Android")
  }

  /** The platform: Windows wins over every other marker, and "Unknown"
      means no marker occurs at all. */
  function Platform(ua: string): (r: string)
    ensures r in Platforms
    ensures Contains(ua, "Windows") ==> r == "Windows"
    ensures r == "Unknown" <==> !AnyPlatformMarker(ua)
    ensures r == "Linux" ==> Contains(ua, "Linux") && !Contains(ua, "Windows") && !Contains(ua, "Macintosh")
  {
    if Contains(ua, "Windows") then "Windows"
    else if Contains(ua, "Macintosh") then "macOS"
    else if Contains(ua, "Linux") then "Linux"
    else if Contains(ua, "iPhone") then "iOS"
    else if Contains(ua, "iPad") then "iPadOS"
    else if Contains(ua, "Android") then "Android"
    else "Unknown"
  }

  /** The browser: "Edg/" wins over everything, "Firefox/" over "Chrome/"
      and "Safari/"; Safari needs "Safari/" without any of the three
      earlier markers, Opera needs none of the four earlier markers (so a
      Chromium-based Opera header, which also carries "Chrome/", is
      reported as Chrome). */
  function Browser(ua: string): (r: string)
    ensures r in Browsers
    ensures Contains(ua, "Edg/") ==> r == "Edge"
    ensures Contains(ua, "Firefox/") && !Contains(ua, "Edg/") ==> r == "Firefox"
    ensures Contains(ua, "Chrome/") && !Contains(ua, "Edg/") && !Contains(ua, "Firefox/") ==> r == "Chrome"
    ensures r == "Safari" <==>
      Contains(ua, "Safari/") && !Contains(ua, "Edg/") && !Contains(ua, "Firefox/") && !Contains(ua, "Chrome/")
    ensures r == "Opera" ==>
      !Contains(ua, "Edg/") && !Contains(ua, "Firefox/") && !Contains(ua, "Chrome/") && !Contains(ua, "Safari/")
    ensures r == "Unknown" <==>
      !Contains(ua, "Edg/") && !Contains(ua, "Firefox/") && !Contains(ua, "Chrome/")
      && !Contains(ua, "Safari/") && !Contains(ua, "OPR/") && !Contains(ua, "Opera/")
  {
    if Contains(ua, "Edg/") then "Edge"
    else if Contains(ua, "Firefox/") then "Firefox"
    else if Contains(ua, "Chrome/") then "Chrome"
    else if Contains(ua, "Safari/") && !Contains(ua, "Chrome/") then "Safari"
    else if Contains(ua, "OPR/") || Contains(ua, "Opera/") then "Opera"
    else "Unknown"
  }

  /** parseUserAgent: both answers come from fixed finite sets. */
  function ParseUserAgent(ua: string): (r: Parsed)
    ensures r.platform in Platforms && r.browser in Browsers
  {
    Parsed(Platform(ua), Browser(ua))
  }
}
