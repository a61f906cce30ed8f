/** Naming policy: environment-scoped resource names and parameter-store
    paths, always lower-cased. Lower-casing is modelled on ASCII letters. */
module Naming {
  import opened Environments

  predicate IsUpper(c: char) {
    'A' <= c <= 'Z'
  }

  /** ASCII `toLowerCase` of one character. */
  function Lower(c: char): (d: char)
    ensures !IsUpper(d)
    ensures IsUpper(c) ==> d as int == c as int + 32
    ensures !IsUpper(c) ==> d == c
  {
    if IsUpper(c) then (c as int + 32) as char else c
  }

  predicate IsLowercase(s: string) {
    forall i :: 0 <= i < |s| ==> !IsUpper(s[i])
  }

  /** ASCII `toLowerCase` of a string: every character lowered, in place. */
  function ToLower(s: string): (r: string)
    ensures |r| == |s|
    ensures forall i :: 0 <= i < |s| ==> r[i] == Lower(s[i])
    ensures IsLowercase(r)
  {
    seq(|s|, i requires 0 <= i < |s| => Lower(s[i]))
  }

  /** Lower-casing a lower-case string changes nothing. */
  lemma ToLowerFixesLowercase(s: string)
    requires IsLowercase(s)
    ensures ToLower(s) == s
  {
  }

  /** Lower-casing distributes over concatenation. */
  lemma ToLowerConcat(a: string, b: string)
    ensures ToLower(a + b) == ToLower(a) + ToLower(b)
  {
  }

  /** Lower-casing a string built from four segments and three one-character
      separators lowers each segment and keeps the separators. */
  lemma {:induction false} ToLowerJoined(a: string, s1: char, b: string, s2: char, c: string, s3: char, d: string)
    requires !IsUpper(s1) && !IsUpper(s2) && !IsUpper(s3)
    ensures ToLower(a + [s1] + b + [s2] + c + [s3] + d)
            == ToLower(a) + [s1] + ToLower(b) + [s2] + ToLower(c) + [s3] + ToLower(d)
  {
    var raw := a + [s1] + b + [s2] + c + [s3] + d;
    var low := ToLower(a) + [s1] + ToLower(b) + [s2] + ToLower(c) + [s3] + ToLower(d);
    assert |raw| == |low|;
    forall i | 0 <= i < |raw|
      ensures ToLower(raw)[i] == low[i]
    {
      if i < |a| {
      } else if i == |a| {
      } else if i < |a| + 1 + |b| {
        assert raw[i] == b[i - |a| - 1];
      } else if i == |a| + 1 + |b| {
      } else if i < |a| + 2 + |b| + |c| {
        assert raw[i] == c[i - |a| - 2 - |b|];
      } else if i == |a| + 2 + |b| + |c| {
      } else {
        assert raw[i] == d[i - |a| - 3 - |b| - |c|];
      }
    }
  }

  /** `getSSMPrefixed`: "/" + app + "-" + env + "/" + name, lower-cased. */
  function GetSSMPrefixed(name: string, environment: Environment): (r: string)
    ensures r == "/" + ToLower(environment.appName) + "-" + ToLower(environment.envName.Text())
                 + "/" + ToLower(name)
    ensures |r| == |environment.appName| + |environment.envName.Text()| + |name| + 3
    ensures r[0] == '/'
    ensures IsLowercase(r) && ToLower(r) == r
  {
    var raw := "/" + environment.appName + "-" + environment.envName.Text() + "/" + name;
    ToLowerJoined("", '/', environment.appName, '-', environment.envName.Text(), '/', name);
    ToLowerFixesLowercase(ToLower(raw));
    ToLower(raw)
  }

  /** `getPrefixed`: org + "-" + app + "-" + env + "-" + name, lower-cased. */
  function GetPrefixed(name: string, environment: Environment): (r: string)
    ensures r == ToLower(environment.orgName) + "-" + ToLower(environment.appName) + "-"
                 + ToLower(environment.envName.Text()) + "-" + ToLower(name)
    ensures |r| == |environment.orgName| + |environment.appName| + |environment.envName.Text()| + |name| + 3
    ensures IsLowercase(r) && ToLower(r) == r
  {
    var raw := environment.orgName + "-" + environment.appName + "-" + environment.envName.Text() + "-" + name;
    ToLowerJoined(environment.orgName, '-', environment.appName, '-', environment.envName.Text(), '-', name);
    ToLowerFixesLowercase(ToLower(raw));
    ToLower(raw)
  }

  /** Only the organisation, application and environment names matter: the
      region and the provisioned-concurrency flag never change a name, and the
      parameter path ignores the organisation too. */
  lemma NamesIgnoreOtherFields(name: string, e1: Environment, e2: Environment)
    requires e1.appName == e2.appName && e1.envName == e2.envName
    ensures GetSSMPrefixed(name, e1) == GetSSMPrefixed(name, e2)
    ensures e1.orgName == e2.orgName ==> GetPrefixed(name, e1) == GetPrefixed(name, e2)
  {
  }

  /** Lower-casing a literal already in lower case: a per-index check. */
  lemma LowercaseLiteral(s: string)
    requires forall i | 0 <= i < |s| :: s[i] in "abcdefghijklmnopqrstuvwxyz0123456789-"
    ensures ToLower(s) == s
  {
  }

  /** Under the `dev` record, names start "wizeline-olympic-games-kb-dev-". */
  lemma DevPrefixed(name: string)
    ensures GetPrefixed(name, DevEnvironment)
            == "wizeline" + "-" + "olympic-games-kb" + "-" + "dev" + "-" + ToLower(name)
  {
    var w := ToLower("Wizeline");
    assert w[0] == 'w';
    LowercaseLiteral("olympic-games-kb");
    LowercaseLiteral("dev");
  }
}
