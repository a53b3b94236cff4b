/** Configuration clean-up done on environment values: the Gemini model name and the CORS origins. */
module Settings {
  import opened Text

  const ModelsPrefix := "models/"

  /** `_normalize_gemini_model`: strip, then drop one leading "models/". */
  function NormalizeGeminiModel(model: string): (r: string)
    ensures StartsWith(Strip(model), ModelsPrefix) ==> ModelsPrefix + r == Strip(model)
    ensures !StartsWith(Strip(model), ModelsPrefix) ==> r == Strip(model)
    ensures |r| <= |model|
  {
    var m := Strip(model);
    if m == "" then ""
    else if StartsWith(m, ModelsPrefix) then m[|ModelsPrefix|..]
    else m
  }

  /** Prefixing a clean model name with "models/" is undone by the normalisation. */
  lemma NormalizeUndoesPrefix(name: string)
    requires IsStripped(name)
    ensures NormalizeGeminiModel(ModelsPrefix + name) == name
  {
    var m := ModelsPrefix + name;
    assert m[0] == 'm';
    assert m[|m| - 1] == if name == [] then '/' else name[|name| - 1];
    StripOfStripped(m);
    assert m[..|ModelsPrefix|] == ModelsPrefix;
  }

  /** A clean name without the prefix is left as it is. */
  lemma NormalizeKeepsBareName(name: string)
    requires IsStripped(name) && !StartsWith(name, ModelsPrefix)
    ensures NormalizeGeminiModel(name) == name
  {
    StripOfStripped(name);
  }

  /** `[o.strip() for o in parts if o.strip()]`. */
  function CleanOrigins(parts: seq<string>): (r: seq<string>)
    ensures |r| <= |parts|
    ensures forall i :: 0 <= i < |r| ==> r[i] != "" && IsStripped(r[i])
    ensures (forall i :: 0 <= i < |parts| ==> ',' !in parts[i]) ==> forall i :: 0 <= i < |r| ==> ',' !in r[i]
  {
    if parts == [] then [] else KeptOrigin(parts[0]) + CleanOrigins(parts[1..])
  }

  /** What one piece contributes: its stripped text, unless that is empty. */
  function KeptOrigin(part: string): (r: seq<string>)
    ensures |r| <= 1
    ensures forall i :: 0 <= i < |r| ==> r[i] != "" && IsStripped(r[i]) && (',' in r[i] ==> ',' in part)
  {
    var o := Strip(part);
    StripChars(part, ',');
    if o != "" then [o] else []
  }

  /** The characters of a stripped string all come from the original. */
  lemma StripChars(s: string, c: char)
    ensures c in Strip(s) ==> c in s
  {
    var r := Strip(s);
    var i := StripOffset(s);
    if c in r {
      var k :| 0 <= k < |r| && r[k] == c;
      assert s[i + k] == c;
    }
  }

  /** The value of ALLOWED_ORIGINS: "*" alone, or the non-blank comma-separated origins, stripped. */
  function AllowedOrigins(raw: string): (r: seq<string>)
    ensures Strip(raw) == "*" ==> r == ["*"]
    ensures Strip(raw) != "*" ==> |r| <= |Split(Strip(raw), ',')|
    ensures forall i :: 0 <= i < |r| ==> r[i] != "" && IsStripped(r[i]) && ',' !in r[i]
  {
    var s := Strip(raw);
    if s == "*" then ["*"] else CleanOrigins(Split(s, ','))
  }

  /** Cleaning two lists one after the other keeps each list's origins, in order. */
  lemma {:induction false} CleanOriginsAppend(a: seq<string>, b: seq<string>)
    ensures CleanOrigins(a + b) == CleanOrigins(a) + CleanOrigins(b)
  {
    if a == [] {
      assert a + b == b;
    } else {
      assert (a + b)[0] == a[0] && (a + b)[1..] == a[1..] + b;
      CleanOriginsAppend(a[1..], b);
    }
  }

  /** One more part adds its stripped text at the end, unless that is blank. */
  lemma CleanOriginsSnoc(parts: seq<string>, p: string)
    ensures CleanOrigins(parts + [p]) == CleanOrigins(parts) + (if Strip(p) == "" then [] else [Strip(p)])
  {
    CleanOriginsAppend(parts, [p]);
    assert CleanOrigins([p]) == KeptOrigin(p) + CleanOrigins([]);
  }

  /** The origins kept are exactly the non-blank stripped parts. */
  lemma {:induction false} CleanOriginsMembers(parts: seq<string>)
    ensures forall o :: o in CleanOrigins(parts) <==> o != "" && exists i :: 0 <= i < |parts| && Strip(parts[i]) == o
  {
    if parts != [] {
      var rest := parts[1..];
      CleanOriginsMembers(rest);
      assert CleanOrigins(parts) == KeptOrigin(parts[0]) + CleanOrigins(rest);
      forall o
        ensures o in CleanOrigins(parts) <==> o != "" && exists i :: 0 <= i < |parts| && Strip(parts[i]) == o
      {
        if o != "" && exists i :: 0 <= i < |parts| && Strip(parts[i]) == o {
          var i :| 0 <= i < |parts| && Strip(parts[i]) == o;
          if i > 0 {
            assert Strip(rest[i - 1]) == o;
          }
        }
        if o in CleanOrigins(rest) {
          var j :| 0 <= j < |rest| && Strip(rest[j]) == o;
          assert Strip(parts[j + 1]) == o;
        }
      }
    }
  }

  /** Clean origins are their own clean-up. */
  lemma {:induction false} CleanOriginsOfClean(origins: seq<string>)
    requires forall i :: 0 <= i < |origins| ==> origins[i] != "" && IsStripped(origins[i])
    ensures CleanOrigins(origins) == origins
  {
    if origins != [] {
      var rest := origins[1..];
      StripOfStripped(origins[0]);
      CleanOriginsOfClean(rest);
      assert KeptOrigin(origins[0]) == [origins[0]];
      assert CleanOrigins(origins) == [origins[0]] + CleanOrigins(rest);
      assert origins == [origins[0]] + rest;
    }
  }

  /** A join of non-empty parts starts with the first part's first character and ends with the last part's last. */
  lemma {:induction false} JoinEnds(parts: seq<string>, sep: char)
    requires |parts| >= 1
    requires forall i :: 0 <= i < |parts| ==> parts[i] != ""
    ensures var j := Join(parts, sep);
      |j| >= 1 && j[0] == parts[0][0] && j[|j| - 1] == parts[|parts| - 1][|parts[|parts| - 1]| - 1]
  {
    if |parts| > 1 {
      JoinEnds(parts[1..], sep);
    }
  }

  /**
   * Unless the whole value is "*", an origin is allowed exactly when it is the non-blank
   * stripped text of one of the comma-separated parts of the stripped value; and the parts
   * are kept in order.
   */
  lemma AllowedOriginsMembers(raw: string)
    requires Strip(raw) != "*"
    ensures var parts := Split(Strip(raw), ',');
            && AllowedOrigins(raw) == CleanOrigins(parts)
            && forall o :: o in AllowedOrigins(raw) <==> o != "" && exists i :: 0 <= i < |parts| && Strip(parts[i]) == o
  {
    CleanOriginsMembers(Split(Strip(raw), ','));
  }

  /** Only the one-part list ["*"] joins to "*". */
  lemma JoinIsStar(parts: seq<string>, sep: char)
    requires |parts| >= 1 && sep != '*'
    requires forall i :: 0 <= i < |parts| ==> parts[i] != ""
    ensures Join(parts, sep) == "*" ==> parts == ["*"]
  {
    if |parts| > 1 {
      assert |Join(parts, sep)| >= |parts[0]| + 1;
    }
  }

  /** An empty list of origins is written as "" and read back as no origin at all. */
  lemma NoOriginsRoundTrip()
    ensures AllowedOrigins(Join([], ',')) == []
  {
    StripOfStripped("");
    assert Split("", ',') == [""];
  }

  /** Origins written comma-separated in the environment are read back exactly. */
  lemma OriginsRoundTrip(origins: seq<string>)
    requires forall i :: 0 <= i < |origins| ==> origins[i] != "" && IsStripped(origins[i]) && ',' !in origins[i]
    ensures AllowedOrigins(Join(origins, ',')) == origins
  {
    if origins == [] {
      NoOriginsRoundTrip();
    } else {
      var raw := Join(origins, ',');
      JoinEnds(origins, ',');
      assert IsStripped(raw);
      StripOfStripped(raw);
      JoinIsStar(origins, ',');
      if raw != "*" {
        assert AllowedOrigins(raw) == CleanOrigins(Split(raw, ','));
        SplitJoin(origins, ',');
        CleanOriginsOfClean(origins);
      }
    }
  }
}
