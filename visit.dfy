/**
 * The two filename helpers of the visiting script: `sanitize_url`, a
 * character translation that makes a URL usable as a file name, and
 * `get_filename`, which builds the path the screenshot is written to.
 */
module Visit {
  import opened Wrappers
  import opened Text

  /** The characters the translation table of `sanitize_url` has an entry for. */
  predicate IsKey(c: char)
  {
    c == '/' || c == ':' || c == ' ' || c == '.'
  }

  /** The table's image of a character that is kept: `:` and `.` become `_`, space becomes `-`. */
  function Translate(c: char): (t: char)
    ensures !IsKey(t) || t == c == '/'
    ensures !IsKey(c) ==> t == c
  {
    if c == ':' || c == '.' then '_' else if c == ' ' then '-' else c
  }

  /**
   * `sanitize_url`: `/` is deleted, every other character is replaced by
   * its image under the table, in order. The result holds no key character
   * and is shorter than the URL by its number of slashes.
   */
  function SanitizeUrl(url: string): (r: string)
    ensures |r| == |url| - Count(url, '/')
    ensures forall i :: 0 <= i < |r| ==> !IsKey(r[i])
    decreases |url|
  {
    if url == [] then []
    else if url[0] == '/' then SanitizeUrl(url[1..])
    else [Translate(url[0])] + SanitizeUrl(url[1..])
  }

  /** The translation works character by character: it distributes over concatenation. */
  lemma {:induction false} SanitizeAppend(a: string, b: string)
    ensures SanitizeUrl(a + b) == SanitizeUrl(a) + SanitizeUrl(b)
    decreases |a|
  {
    if a == [] {
      assert a + b == b;
    } else {
      assert (a + b)[1..] == a[1..] + b;
      SanitizeAppend(a[1..], b);
    }
  }

  /** A slash only separates: the parts on either side are translated on their own. */
  lemma SanitizeDeletesSlash(a: string, b: string)
    ensures SanitizeUrl(a + "/" + b) == SanitizeUrl(a) + SanitizeUrl(b)
  {
    SanitizeAppend(a + "/", b);
    SanitizeAppend(a, "/");
    assert SanitizeUrl("/") == [] by {
      assert "/"[1..] == [];
    }
  }

  /** Without slashes nothing is deleted: position `i` of the result is the image of position `i` of the URL. */
  lemma {:induction false} SanitizeWithoutSlash(url: string)
    requires '/' !in url
    ensures |SanitizeUrl(url)| == |url|
    ensures forall i :: 0 <= i < |url| ==> SanitizeUrl(url)[i] == Translate(url[i])
    decreases |url|
  {
    if url != [] {
      assert '/' !in url[1..] by {
        assert forall k :: 0 <= k < |url[1..]| ==> url[1..][k] == url[k + 1];
      }
      SanitizeWithoutSlash(url[1..]);
    }
  }

  /** A string without key characters is left as it is. */
  lemma {:induction false} SanitizeFixesClean(s: string)
    requires forall i :: 0 <= i < |s| ==> !IsKey(s[i])
    ensures SanitizeUrl(s) == s
    decreases |s|
  {
    if s != [] {
      assert forall i :: 0 <= i < |s[1..]| ==> !IsKey(s[1..][i]) by {
        assert forall k :: 0 <= k < |s[1..]| ==> s[1..][k] == s[k + 1];
      }
      SanitizeFixesClean(s[1..]);
      assert s == [s[0]] + s[1..];
    }
  }

  /** `sanitize_url` is idempotent: its images `_` and `-` are not keys. */
  lemma SanitizeIdempotent(url: string)
    ensures SanitizeUrl(SanitizeUrl(url)) == SanitizeUrl(url)
  {
    SanitizeFixesClean(SanitizeUrl(url));
  }

  /**
   * `os.path.basename`: the text after the last `/` (empty when the path
   * ends in one). It holds no slash, ends the path, and is either the whole
   * path or preceded by a slash.
   */
  function Basename(path: string): (b: string)
    ensures '/' !in b
    ensures EndsWith(path, b)
    ensures |b| < |path| ==> path[|path| - |b| - 1] == '/'
    decreases |path|
  {
    if path == [] then []
    else if path[|path| - 1] == '/' then []
    else Basename(path[..|path| - 1]) + [path[|path| - 1]]
  }

  /** The basename of a file inside a directory is the file's own name. */
  lemma {:induction false} BasenameOfJoin(dir: string, name: string)
    requires '/' !in name
    ensures Basename(dir + "/" + name) == name
    decreases |name|
  {
    var path := dir + "/" + name;
    if name == [] {
      assert path[|path| - 1] == '/';
    } else {
      var init := name[..|name| - 1];
      assert path[..|path| - 1] == dir + "/" + init;
      assert '/' !in init by {
        assert forall k :: 0 <= k < |init| ==> init[k] == name[k];
      }
      BasenameOfJoin(dir, init);
      assert name == init + [name[|name| - 1]];
    }
  }

  /**
   * `get_filename`: the screenshot path for `url`, prefixed by the
   * sanitized basename of the VPN configuration file when one is given (an
   * empty configuration path counts as none, as Python's truthiness has it).
   */
  function GetFilename(url: string, vpnconfig: Option<string>): (name: string)
    ensures StartsWith(name, "results/") && EndsWith(name, ".png")
  {
    if vpnconfig.Some? && vpnconfig.value != "" then
      "results/" + SanitizeUrl(Basename(vpnconfig.value)) + "-" + SanitizeUrl(url) + ".png"
    else
      "results/" + SanitizeUrl(url) + ".png"
  }

  /** A sanitized string holds no slash: the key-free ensures of SanitizeUrl, specialised to `/`. */
  lemma SanitizedHasNoSlash(url: string)
    ensures '/' !in SanitizeUrl(url)
  {
  }

  /** `results/` followed by a slash-free body holds one slash. */
  lemma ResultsPathSlashes(body: string)
    requires '/' !in body
    ensures Count("results/" + body, '/') == 1
  {
    assert Count("results/", '/') == 1 by {
      assert '/' !in "results";
      assert Count("/", '/') == 1 by {
        assert "/"[1..] == [];
      }
      assert "results" + "/" == "results/";
      CountAppend("results", "/", '/');
    }
    CountAppend("results/", body, '/');
  }

  /** Every screenshot path lies directly inside `results/`: it holds exactly one slash. */
  lemma GetFilenameShape(url: string, vpnconfig: Option<string>)
    ensures Count(GetFilename(url, vpnconfig), '/') == 1
  {
    var u := SanitizeUrl(url);
    SanitizedHasNoSlash(url);
    if vpnconfig.Some? && vpnconfig.value != "" {
      var v := SanitizeUrl(Basename(vpnconfig.value));
      SanitizedHasNoSlash(Basename(vpnconfig.value));
      var body := v + "-" + u + ".png";
      assert "results/" + v + "-" + u + ".png" == "results/" + body;
      ResultsPathSlashes(body);
    } else {
      assert "results/" + u + ".png" == "results/" + (u + ".png");
      ResultsPathSlashes(u + ".png");
    }
  }

  /** Without a VPN, the name is determined by the sanitized URL and gives it back. */
  lemma GetFilenameRecoversUrl(url: string, other: string)
    ensures var name := GetFilename(url, None);
      |name| == |SanitizeUrl(url)| + 12 && name[8..|name| - 4] == SanitizeUrl(url)
    ensures GetFilename(url, None) == GetFilename(other, None) <==> SanitizeUrl(url) == SanitizeUrl(other)
  {
    var n1 := GetFilename(url, None);
    var n2 := GetFilename(other, None);
    assert n1[8..|n1| - 4] == SanitizeUrl(url);
    assert n2[8..|n2| - 4] == SanitizeUrl(other);
  }

  /** An empty VPN configuration path is treated like none at all. */
  lemma GetFilenameEmptyVpn(url: string)
    ensures GetFilename(url, Some("")) == GetFilename(url, None)
  {
  }
}
