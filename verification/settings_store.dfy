/**
 * stores/settings-store.ts: the application settings tree, read and written by
 * dotted paths, and the theme choice. The tree is a JSON object; a path is
 * split on '.' and walked one key at a time.
 */
module SettingsStore {
  import opened Common
  import opened Json

  type Tree = map<string, Value>

  // ---------------------------------------------------------------------------
  // getFromPath

  /** `keys.reduce((acc, part) => acc?.[part], start)`. */
  function GetKeys(start: Option<Value>, keys: seq<string>): Option<Value>
    decreases |keys|
  {
    if keys == [] then start else GetKeys(Prop(start, keys[0]), keys[1..])
  }

  /** `getFromPath(obj, path)`: `None` is `undefined`. */
  function GetFromPath(obj: Tree, path: string): Option<Value> {
    GetKeys(Some(Obj(obj)), Split(path, '.'))
  }

  /** Once the walk has fallen off the tree it stays `undefined`. */
  lemma {:induction false} GetKeysOfUndefined(keys: seq<string>)
    ensures GetKeys(None, keys) == None
  {
    if keys != [] {
      GetKeysOfUndefined(keys[1..]);
    }
  }

  /** Walking a prefix of `keys` is one step followed by a prefix of the rest. */
  lemma GetKeysPrefix(start: Option<Value>, keys: seq<string>, j: nat)
    requires 1 <= j <= |keys|
    ensures GetKeys(start, keys[..j]) == GetKeys(Prop(start, keys[0]), keys[1..][..j - 1])
  {
    assert keys[..j][0] == keys[0];
    assert keys[..j][1..] == keys[1..][..j - 1];
  }

  // ---------------------------------------------------------------------------
  // setToPath

  /**
   * `setToPath` on the key list: every intermediate key that is missing or null
   * becomes `{}`; an intermediate that holds a primitive makes the assignment
   * throw a TypeError (module code is strict), shown as `None`.
   */
  function SetIn(m: Tree, keys: seq<string>, v: Value): Option<Tree>
    requires |keys| >= 1
    decreases |keys|
  {
    var k := keys[0];
    if |keys| == 1 then Some(m[k := v])
    else if k !in m || m[k].Null? then
      match SetIn(map[], keys[1..], v)
      case Some(c) => Some(m[k := Obj(c)])
      case None => None
    else if m[k].Obj? then
      match SetIn(m[k].fields, keys[1..], v)
      case Some(c) => Some(m[k := Obj(c)])
      case None => None
    else None
  }

  /** `setToPath(obj, path, value)`. */
  function SetToPath(obj: Tree, path: string, v: Value): Option<Tree> {
    SetIn(obj, Split(path, '.'), v)
  }

  /** A value the walk cannot write through: a boolean, number or string. */
  predicate Blocked(v: Option<Value>) {
    v.Some? && (v.value.Bool? || v.value.Num? || v.value.Str?)
  }

  /** A fresh subtree can always be built. */
  lemma {:induction false} SetInEmpty(keys: seq<string>, v: Value)
    requires |keys| >= 1
    ensures SetIn(map[], keys, v).Some?
  {
    if |keys| > 1 {
      SetInEmpty(keys[1..], v);
    }
  }

  /**
   * The write succeeds exactly when no proper prefix of the path leads to a
   * primitive value.
   */
  lemma {:induction false} SetInSucceedsIff(m: Tree, keys: seq<string>, v: Value)
    requires |keys| >= 1
    ensures SetIn(m, keys, v).Some? <==>
            forall j :: 1 <= j < |keys| ==> !Blocked(GetKeys(Some(Obj(m)), keys[..j]))
    decreases |keys|
  {
    if |keys| > 1 {
      var k := keys[0];
      var rest := keys[1..];
      forall j | 1 <= j <= |keys| {
        GetKeysPrefix(Some(Obj(m)), keys, j);
      }
      if k !in m || m[k].Null? {
        SetInEmpty(rest, v);
        forall j | 1 <= j < |keys| ensures !Blocked(GetKeys(Some(Obj(m)), keys[..j])) {
          if j > 1 {
            GetKeysOfUndefined(rest[..j - 1]);
            assert GetKeys(Prop(Some(Obj(m)), k), rest[..j - 1]) == GetKeys(Prop(Prop(Some(Obj(m)), k), rest[0]), rest[1..][..j - 2]) by {
              GetKeysPrefix(Prop(Some(Obj(m)), k), rest, j - 1);
            }
            GetKeysOfUndefined(rest[1..][..j - 2]);
          }
        }
      } else if m[k].Obj? {
        var c := m[k].fields;
        SetInSucceedsIff(c, rest, v);
        assert Prop(Some(Obj(m)), k) == Some(Obj(c));
        forall j | 1 <= j < |rest|
          ensures GetKeys(Some(Obj(m)), keys[..j + 1]) == GetKeys(Some(Obj(c)), rest[..j])
        {
          GetKeysPrefix(Some(Obj(m)), keys, j + 1);
        }
        assert GetKeys(Some(Obj(m)), keys[..1]) == Some(Obj(c)) by {
          GetKeysPrefix(Some(Obj(m)), keys, 1);
        }
      } else {
        assert Blocked(GetKeys(Some(Obj(m)), keys[..1]));
      }
    }
  }

  /** Get after set: the value written is what the path reads afterwards. */
  lemma {:induction false} GetAfterSet(m: Tree, keys: seq<string>, v: Value)
    requires |keys| >= 1 && SetIn(m, keys, v).Some?
    ensures GetKeys(Some(Obj(SetIn(m, keys, v).value)), keys) == Some(v)
    decreases |keys|
  {
    if |keys| > 1 {
      var k := keys[0];
      var child := if k !in m || m[k].Null? then map[] else m[k].fields;
      GetAfterSet(child, keys[1..], v);
    }
  }

  /** After a successful write every proper prefix of the path holds an object: missing levels were created. */
  lemma {:induction false} SetCreatesIntermediates(m: Tree, keys: seq<string>, v: Value, j: nat)
    requires |keys| >= 1 && SetIn(m, keys, v).Some?
    requires 1 <= j < |keys|
    ensures var w := GetKeys(Some(Obj(SetIn(m, keys, v).value)), keys[..j]);
            w.Some? && w.value.Obj?
    decreases |keys|
  {
    var k := keys[0];
    var r := SetIn(m, keys, v).value;
    var child := if k !in m || m[k].Null? then map[] else m[k].fields;
    GetKeysPrefix(Some(Obj(r)), keys, j);
    if j > 1 {
      SetCreatesIntermediates(child, keys[1..], v, j - 1);
    }
  }

  /** Two paths that part ways at some position: neither is a prefix of the other. */
  predicate Diverge(a: seq<string>, b: seq<string>)
    decreases |a|
  {
    |a| > 0 && |b| > 0 && (a[0] != b[0] || Diverge(a[1..], b[1..]))
  }

  /** A write leaves every path that diverges from it reading as before. */
  lemma {:induction false} SetFrame(m: Tree, keys: seq<string>, v: Value, p: seq<string>)
    requires |keys| >= 1 && SetIn(m, keys, v).Some?
    requires Diverge(keys, p)
    ensures GetKeys(Some(Obj(SetIn(m, keys, v).value)), p) == GetKeys(Some(Obj(m)), p)
    decreases |keys|
  {
    var k := keys[0];
    var r := SetIn(m, keys, v).value;
    if k != p[0] {
      assert Prop(Some(Obj(r)), p[0]) == Prop(Some(Obj(m)), p[0]);
    } else {
      var child := if k !in m || m[k].Null? then map[] else m[k].fields;
      SetFrame(child, keys[1..], v, p[1..]);
      if k !in m || m[k].Null? {
        GetKeysOfUndefined(p[1..]);
        GetKeysOfUndefined(p[1..][1..]);
      }
    }
  }

  // ---------------------------------------------------------------------------
  // Theme

  datatype Mode = Light | Dark

  /** `'light' | 'dark' | 'system'`. */
  datatype Theme = Fixed(mode: Mode) | System

  function Flip(m: Mode): (r: Mode)
    ensures r != m
  {
    if m == Light then Dark else Light
  }

  lemma FlipTwice(m: Mode)
    ensures Flip(Flip(m)) == m
  {
  }

  class Settings {
    /** `APP_SETTINGS`, the defaults from the configuration (config/settings.config is not part of this model). */
    const appSettings: Tree
    var settings: Tree
    var theme: Theme
    var themeMode: Mode

    constructor (defaults: Tree)
      ensures appSettings == defaults && settings == defaults
      ensures theme == System && themeMode == Light
    {
      appSettings := defaults;
      settings := defaults;
      theme := System;
      themeMode := Light;
    }

    /** `getOption(path)`. */
    method GetOption(path: string) returns (r: Option<Value>)
      ensures r == GetFromPath(settings, path)
    {
      r := GetFromPath(settings, path);
    }

    /** `setOption(path, value)`; `ok` is false where the write throws, and then nothing changes. */
    method SetOption(path: string, value: Value) returns (ok: bool)
      modifies this
      ensures ok == SetToPath(old(settings), path, value).Some?
      ensures ok ==> settings == SetToPath(old(settings), path, value).value
      ensures ok ==> GetFromPath(settings, path) == Some(value)
      ensures !ok ==> settings == old(settings)
      ensures theme == old(theme) && themeMode == old(themeMode)
    {
      var r := SetToPath(settings, path, value);
      ok := r.Some?;
      if ok {
        GetAfterSet(settings, Split(path, '.'), value);
        settings := r.value;
      }
    }

    /** `storeOption(path, value)`: as `setOption` in a browser (the localStorage copy is not modelled), nothing without one. */
    method StoreOption(path: string, value: Value, hasWindow: bool) returns (ok: bool)
      modifies this
      ensures ok == (hasWindow && SetToPath(old(settings), path, value).Some?)
      ensures ok ==> settings == SetToPath(old(settings), path, value).value
      ensures !ok ==> settings == old(settings)
      ensures theme == old(theme) && themeMode == old(themeMode)
    {
      ok := false;
      if hasWindow {
        ok := SetOption(path, value);
      }
    }

    /** `resetSettings()`. */
    method ResetSettings()
      modifies this
      ensures settings == appSettings
      ensures theme == old(theme) && themeMode == old(themeMode)
    {
      settings := appSettings;
    }

    /**
     * `setTheme(t)`: a light or dark theme also sets the mode; `system` takes the
     * mode from the browser's colour-scheme preference (`prefersDark`), when there
     * is a browser.
     */
    method SetTheme(t: Theme, prefersDark: Option<bool>)
      modifies this
      ensures theme == t && settings == old(settings)
      ensures t.Fixed? ==> themeMode == t.mode
      ensures t.System? && prefersDark.Some? ==> themeMode == if prefersDark.value then Dark else Light
      ensures t.System? && prefersDark.None? ==> themeMode == old(themeMode)
    {
      theme := t;
      match t
      case Fixed(mode) =>
        themeMode := mode;
      case System =>
        if prefersDark.Some? {
          themeMode := if prefersDark.value then Dark else Light;
        }
    }

    method SetThemeMode(mode: Mode)
      modifies this
      ensures themeMode == mode && theme == old(theme) && settings == old(settings)
    {
      themeMode := mode;
    }

    /** `toggleTheme()`: the mode flips and the theme follows it. */
    method ToggleTheme()
      modifies this
      ensures themeMode == Flip(old(themeMode)) && theme == Fixed(themeMode)
      ensures settings == old(settings)
    {
      var newMode := Flip(themeMode);
      themeMode, theme := newMode, Fixed(newMode);
    }
  }
}
