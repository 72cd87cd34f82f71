/** Forcing the resolved URL to request a JSON document. */
module UrlExtension {
  import opened Wrappers

  /** The only extension a resolved URL is allowed to end with. */
  const JsonExtension: string := ".json"

  /** The extension of a YAML document name. */
  const YamlExtension: string := ".yaml"

  predicate EndsWith(s: string, suffix: string)
  {
    |suffix| <= |s| && s[|s| - |suffix|..] == suffix
  }

  /** A file extension: empty, or a dot followed by characters that are
      neither dots nor path separators. */
  ghost predicate IsExtension(x: string)
  {
    |x| == 0 || (x[0] == '.' && forall j :: 1 <= j < |x| ==> x[j] != '.' && x[j] != '/')
  }

  /** The position of the dot that starts the extension of the last path
      segment of `u`, if that segment has one. */
  function ExtensionStart(u: string): (k: Option<nat>)
    ensures k.Some? ==> k.value < |u| && IsExtension(u[k.value..])
    ensures k.None? ==> forall j :: 0 <= j < |u| && u[j] == '.' ==> exists i :: j < i < |u| && u[i] == '/'
    decreases |u|
  {
    if |u| == 0 then None
    else if u[|u| - 1] == '.' then Some(|u| - 1)
    else if u[|u| - 1] == '/' then None
    else
      var k := ExtensionStart(u[..|u| - 1]);
      assert forall j :: 0 <= j < |u| - 1 ==> u[..|u| - 1][j] == u[j];
      k
  }

  /** Makes `u` end in `.json`: kept when it already does, otherwise the
      extension of its last segment is replaced, or `.json` is appended when
      that segment has none. A `.yaml` URL therefore becomes a `.json` one. */
  function NormalizeExtension(u: string): (r: string)
    ensures EndsWith(r, JsonExtension)
    ensures EndsWith(u, JsonExtension) ==> r == u
    ensures r[..|r| - |JsonExtension|] <= u && IsExtension(u[|r| - |JsonExtension|..])
    ensures EndsWith(u, YamlExtension) ==> r == u[..|u| - |YamlExtension|] + JsonExtension
  {
    YamlExtensionStart(u);
    if EndsWith(u, JsonExtension) then u
    else
      match ExtensionStart(u)
      case Some(k) => u[..k] + JsonExtension
      case None => u + JsonExtension
  }

  /** Normalizing twice changes nothing more. */
  lemma NormalizeIdempotent(u: string)
    ensures NormalizeExtension(NormalizeExtension(u)) == NormalizeExtension(u)
  {
  }

  /** When the last `n` characters of `u` are a dot followed by characters
      that are neither dots nor slashes, the extension starts at that dot. */
  lemma {:induction false} ExtensionStartAtLastDot(u: string, n: nat)
    requires 0 < n <= |u| && u[|u| - n] == '.'
    requires forall j :: |u| - n < j < |u| ==> u[j] != '.' && u[j] != '/'
    ensures ExtensionStart(u) == Some(|u| - n)
    decreases n
  {
    if n > 1 {
      var v := u[..|u| - 1];
      assert forall j :: 0 <= j < |v| ==> v[j] == u[j];
      ExtensionStartAtLastDot(v, n - 1);
    }
  }

  /** The last five characters of a name ending in `.yaml`. */
  lemma YamlCharacters(u: string)
    requires EndsWith(u, YamlExtension)
    ensures u[|u| - 5] == '.' && u[|u| - 4] == 'y' && u[|u| - 3] == 'a' && u[|u| - 2] == 'm' && u[|u| - 1] == 'l'
  {
    var n := |u|;
    assert u[n - 5..] == ".yaml";
    assert u[n - 5..][0] == u[n - 5] && u[n - 5..][1] == u[n - 4] && u[n - 5..][2] == u[n - 3];
    assert u[n - 5..][3] == u[n - 2] && u[n - 5..][4] == u[n - 1];
  }

  /** In a name ending in `.yaml` the extension starts at that dot, and the
      name does not end in `.json`. */
  lemma YamlExtensionStart(u: string)
    ensures EndsWith(u, YamlExtension) ==> ExtensionStart(u) == Some(|u| - |YamlExtension|) && !EndsWith(u, JsonExtension)
  {
    if EndsWith(u, YamlExtension) {
      YamlCharacters(u);
      ExtensionStartAtLastDot(u, 5);
      assert !EndsWith(u, JsonExtension) by {
        assert u[|u| - 5..][1] == 'y' != JsonExtension[1];
      }
    }
  }

  /** A URL naming a YAML document is turned into the one naming the JSON
      document of the same name. */
  lemma NormalizeYaml(a: string)
    ensures NormalizeExtension(a + YamlExtension) == a + JsonExtension
  {
    var u := a + YamlExtension;
    assert u[|u| - |YamlExtension|..] == YamlExtension;
    assert u[..|a|] == a;
  }
}
