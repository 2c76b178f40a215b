/** The links the `run` command shows and saves once a Flow has started: a
    direct HTTP link to the bag, a Globus web-app link to the directory that
    holds it, and the bag's file name (cfde_client/main.py, lines 121-126). */
module FlowLinks {
  import opened PosixPath

  /** The two configuration constants the links are built from: the
      endpoint's HTTP base URL (`EP_URL`) and its Globus id (`EP_UUID`). */
  datatype Config = Config(epUrl: string, epUuid: string)

  const FileManagerPrefix: string := "https://app.globus.org/file-manager?origin_id="
  const OriginPathParam: string := "&origin_path="

  datatype BagLinks = BagLinks(httpLink: string, globusWebLink: string, filename: string)

  function DeriveLinks(config: Config, destPath: string): (r: BagLinks)
    ensures '/' !in r.filename
    ensures |r.filename| <= |destPath| && destPath[|destPath| - |r.filename|..] == r.filename
  {
    BagLinks(config.epUrl + destPath,
             FileManagerPrefix + config.epUuid + OriginPathParam + Dirname(destPath),
             Basename(destPath))
  }

  /** The HTTP link ends with the destination path, and so with the file name. */
  lemma HttpLinkEndsWithPath(config: Config, destPath: string)
    ensures var r := DeriveLinks(config, destPath);
      |destPath| <= |r.httpLink| && r.httpLink[|r.httpLink| - |destPath|..] == destPath
      && |r.filename| <= |r.httpLink| && r.httpLink[|r.httpLink| - |r.filename|..] == r.filename
  {
    var r := DeriveLinks(config, destPath);
    EndsWith(config.epUrl, destPath, |r.filename|);
  }

  /** `a + b` ends with `b`, and with every suffix of `b`. */
  lemma EndsWith(a: string, b: string, n: nat)
    requires n <= |b|
    ensures |b| <= |a + b| && (a + b)[|a + b| - |b|..] == b
    ensures (a + b)[|a + b| - n..] == b[|b| - n..]
  {
    assert (a + b)[|a|..] == b;
  }

  /** Under one configuration the HTTP link determines the destination path,
      and the web link determines its directory. */
  lemma LinksDetermineLocation(config: Config, p1: string, p2: string)
    ensures DeriveLinks(config, p1).httpLink == DeriveLinks(config, p2).httpLink ==> p1 == p2
    ensures DeriveLinks(config, p1).globusWebLink == DeriveLinks(config, p2).globusWebLink
      <==> Dirname(p1) == Dirname(p2)
  {
    var h1, h2 := DeriveLinks(config, p1).httpLink, DeriveLinks(config, p2).httpLink;
    if h1 == h2 {
      assert p1 == h1[|config.epUrl|..] == h2[|config.epUrl|..] == p2;
    }
    var pre := FileManagerPrefix + config.epUuid + OriginPathParam;
    var w1, w2 := DeriveLinks(config, p1).globusWebLink, DeriveLinks(config, p2).globusWebLink;
    if w1 == w2 {
      assert Dirname(p1) == w1[|pre|..] == w2[|pre|..] == Dirname(p2);
    }
  }

  /** A bag stored at /public/bag.zip. */
  lemma BagLinksExample(config: Config)
    ensures var r := DeriveLinks(config, "/public/bag.zip");
      r.filename == "bag.zip"
      && r.globusWebLink == FileManagerPrefix + config.epUuid + "&origin_path=/public"
  {
    BagPathExample();
  }
}
