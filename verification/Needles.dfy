/** Finding a VM's processes by a path in their command line, without ever finding a sibling's. */
module Needles {
  import opened Text
  import opened Options
  import opened Snapshots
  import opened Launch

  // ---- slashes ---------------------------------------------------------------------------------------------------

  function Slashes(s: string): nat
  {
    if s == "" then 0 else (if s[0] == '/' then 1 else 0) + Slashes(s[1..])
  }

  lemma {:induction false} SlashesAppend(a: string, b: string)
    ensures Slashes(a + b) == Slashes(a) + Slashes(b)
  {
    if a == "" {
      assert a + b == b;
    } else {
      assert (a + b)[1..] == a[1..] + b;
      SlashesAppend(a[1..], b);
    }
  }

  lemma {:induction false} NoSlashes(s: string)
    ensures Slashes(s) == 0 <==> '/' !in s
  {
    if s != "" {
      NoSlashes(s[1..]);
      assert s == [s[0]] + s[1..];
    }
  }

  lemma {:induction false} EscapeKeepsSlashes(s: string)
    ensures Slashes(Escape(s)) == Slashes(s)
  {
    if s != "" {
      EscapeKeepsSlashes(s[1..]);
      SlashesAppend(if s[0] == ',' then ",," else [s[0]], Escape(s[1..]));
      assert Slashes([s[0]]) == (if s[0] == '/' then 1 else 0) + Slashes("") by { assert [s[0]][1..] == ""; }
      assert Slashes(",,") == 0 by { NoSlashes(",,"); }
    }
  }

  lemma SlashesOfPath(p: string, b: string, q: string)
    requires '/' !in b && '/' !in q
    ensures Slashes(p + "/" + b + "/" + q) == Slashes(p) + 2
  {
    NoSlashes(b);
    NoSlashes(q);
    assert Slashes("/") == 1 + Slashes("") by { assert "/"[1..] == ""; }
    SlashesAppend(p, "/");
    SlashesAppend(p + "/", b);
    SlashesAppend(p + "/" + b, "/");
    SlashesAppend(p + "/" + b + "/", q);
  }

  /** A path is split at its last two slashes in one way only. */
  lemma LastNames(p: string, b: string, q: string, x: string, a: string, y: string)
    requires '/' !in a && '/' !in b && '/' !in q && '/' !in y
    requires p + "/" + b + "/" + q == x + "/" + a + "/" + y
    ensures a == b
  {
    AfterLastSlashOfFile(p + "/" + b, q);
    AfterLastSlashOfFile(x + "/" + a, y);
    var hay := p + "/" + b + "/" + q;
    assert hay[..|hay| - |q| - 1] == p + "/" + b;
    assert hay == x + "/" + a + "/" + y;
    assert hay[..|hay| - |q| - 1] == x + "/" + a;
    AfterLastSlashOfFile(p, b);
    AfterLastSlashOfFile(x, a);
  }

  /** A string with no more slashes than a needle it contains has none around the needle. */
  lemma NothingAround(hay: string, needle: string) returns (left: string, right: string)
    requires Contains(hay, needle) && Slashes(hay) <= Slashes(needle)
    ensures hay == left + needle + right && '/' !in left && '/' !in right
  {
    var i :| 0 <= i <= |hay| && OccursAt(hay, needle, i);
    left, right := hay[..i], hay[i + |needle|..];
    assert hay == left + needle + right;
    SlashesAppend(left, needle);
    SlashesAppend(left + needle, right);
    NoSlashes(left);
    NoSlashes(right);
  }

  /** Aligned by their slashes, a needle in directory a can occur in a path of directory b only if a is b. */
  lemma NeedleFindsItsDirectory(p: string, b: string, q: string, x: string, a: string, y: string)
    requires '/' !in a && '/' !in b && '/' !in q && '/' !in y && Slashes(p) <= Slashes(x)
    requires Contains(p + "/" + b + "/" + q, x + "/" + a + "/" + y)
    ensures a == b
  {
    SlashesOfPath(p, b, q);
    SlashesOfPath(x, a, y);
    var left, right := NothingAround(p + "/" + b + "/" + q, x + "/" + a + "/" + y);
    Reassociate(left, x, a, y, right);
    LastNames(p, b, q, left + x, a, y + right);
  }

  lemma Reassociate(left: string, x: string, a: string, y: string, right: string)
    ensures left + (x + "/" + a + "/" + y) + right == (left + x) + "/" + a + "/" + (y + right)
  {
  }

  // ---- the directories of VMs ------------------------------------------------------------------------------------

  /** vmDirPrefix of a VM's directory, or with a file name its qemuPIDPath. */
  function Needle(vms: string, a: string, y: string): string { VMDir(vms, a) + "/" + y }

  function PidPath(vms: string, b: string): string { Needle(vms, b, "qemu.pid") }

  /** What requestedVMName accepts: no slash, no comma, no leading dot. */
  predicate LegalName(name: string) { name != "" && name[0] != '.' && '/' !in name && ',' !in name }

  ghost predicate InDir(vms: string, b: string, path: string)
  {
    exists file :: '/' !in file && path == Needle(vms, b, file)
  }

  /** No argument names a's directory. */
  ghost predicate Matches(args: seq<string>, needle: string)
  {
    exists i :: 0 <= i < |args| && Contains(args[i], needle)
  }

  lemma MatchesAppend(a: seq<string>, b: seq<string>, needle: string)
    ensures Matches(a + b, needle) <==> Matches(a, needle) || Matches(b, needle)
  {
    if i :| 0 <= i < |a| && Contains(a[i], needle) { assert (a + b)[i] == a[i]; }
    if i :| 0 <= i < |b| && Contains(b[i], needle) { assert (a + b)[|a| + i] == b[i]; }
  }

  /** An argument without a slash names no directory. */
  lemma SilentArg(arg: string, vms: string, a: string, y: string)
    requires '/' !in arg
    ensures !Contains(arg, Needle(vms, a, y))
  {
    var needle := Needle(vms, a, y);
    assert needle[|vms|] == '/';
    forall i | 0 <= i && i + |needle| <= |arg| ensures !OccursAt(arg, needle, i) {
      assert arg[i..i + |needle|][|vms|] == arg[i + |vms|];
    }
  }

  lemma EscapedPath(vms: string, b: string, file: string)
    requires ',' !in b
    ensures Escape(Needle(vms, b, file)) == Escape(vms) + "/" + b + "/" + Escape(file)
  {
    EscapeAppend(vms + "/" + b + "/", file);
    EscapeAppend(vms + "/" + b, "/");
    EscapeAppend(vms + "/", b);
    EscapeAppend(vms, "/");
    EscapePlain("/");
    EscapePlain(b);
  }

  lemma OtherDirectory(before: string, root: string, b: string, file: string, after: string, vms: string, a: string, y: string)
    requires '/' !in a && '/' !in b && a != b && '/' !in file && '/' !in before && '/' !in after && '/' !in y
    requires Slashes(root) == Slashes(vms)
    ensures !Contains(before + (root + "/" + b + "/" + file) + after, Needle(vms, a, y))
  {
    NoSlashes(before);
    SlashesAppend(before, root);
    Reassociate(before, root, b, file, after);
    if Contains(before + (root + "/" + b + "/" + file) + after, Needle(vms, a, y)) {
      NeedleFindsItsDirectory(before + root, b, file + after, vms, a, y);
    }
  }

  /** An argument that names one path of b's directory, escaped or not, does not name a's. */
  lemma OwnPathArg(before: string, vms: string, b: string, path: string, after: string, a: string, y: string)
    requires LegalName(a) && LegalName(b) && a != b && InDir(vms, b, path) && '/' !in before && '/' !in after && '/' !in y
    ensures !Contains(before + Escape(path) + after, Needle(vms, a, y))
    ensures !Contains(before + path + after, Needle(vms, a, y))
  {
    var file :| '/' !in file && path == Needle(vms, b, file);
    EscapedPath(vms, b, file);
    EscapeKeepsSlashes(vms);
    EscapeKeepsSlashes(file);
    NoSlashes(file);
    NoSlashes(Escape(file));
    OtherDirectory(before, Escape(vms), b, Escape(file), after, vms, a, y);
    OtherDirectory(before, vms, b, file, after, vms, a, y);
  }

  // ---- options -----------------------------------------------------------------------------------------------------

  ghost predicate NoSlash(fields: seq<string>) { forall i :: 0 <= i < |fields| ==> '/' !in fields[i] }

  lemma {:induction false} JoinSilent(fields: seq<string>)
    requires NoSlash(fields)
    ensures '/' !in Join(EscapeAll(fields), ',')
  {
    if fields != [] {
      var parts := EscapeAll(fields);
      EscapeKeepsSlashes(fields[0]);
      NoSlashes(fields[0]);
      NoSlashes(parts[0]);
      if |fields| > 1 {
        assert parts[1..] == EscapeAll(fields[1..]);
        JoinSilent(fields[1..]);
      }
    }
  }

  lemma {:induction false} JoinAround(before: seq<string>, v: string, after: seq<string>) returns (l: string, r: string)
    requires NoSlash(before) && NoSlash(after)
    ensures '/' !in l && '/' !in r && Join(before + [v] + after, ',') == l + v + r
  {
    var parts := before + [v] + after;
    if before == [] {
      l := "";
      if after == [] {
        r := "";
        assert parts == [v];
      } else {
        r := "," + Join(after, ',');
        assert parts[1..] == after;
        PlainJoinSilent(after);
      }
    } else {
      assert parts[1..] == before[1..] + [v] + after;
      l, r := JoinAround(before[1..], v, after);
      l := before[0] + "," + l;
    }
  }

  lemma {:induction false} PlainJoinSilent(fields: seq<string>)
    requires NoSlash(fields)
    ensures '/' !in Join(fields, ',')
  {
    if |fields| > 1 { PlainJoinSilent(fields[1..]); }
  }

  /** An option without a slash matches nothing. */
  lemma SilentOpt(o: Opt, vms: string, a: string, y: string)
    requires '/' !in o.flag && NoSlash(o.fields)
    ensures !Matches(PrintOne(o), Needle(vms, a, y))
  {
    JoinSilent(o.fields);
    SilentArg(o.flag, vms, a, y);
    SilentArg(Join(EscapeAll(o.fields), ','), vms, a, y);
  }

  /** An option whose only path lies in b's directory matches no needle of a. */
  lemma OwnOpt(flag: string, before: seq<string>, key: string, path: string, after: seq<string>,
               vms: string, b: string, a: string, y: string)
    requires '/' !in flag && NoSlash(before) && NoSlash(after) && '/' !in key && AllPlain(before) && AllPlain(after) && ',' !in key
    requires LegalName(a) && LegalName(b) && a != b && InDir(vms, b, path) && '/' !in y
    ensures !Matches(PrintOne(Opt(flag, before + [key + path] + after)), Needle(vms, a, y))
  {
    ValueEscapes(before, key, path, after);
    var l, r := JoinAround(before, key + Escape(path), after);
    assert l + (key + Escape(path)) + r == (l + key) + Escape(path) + r;
    OwnPathArg(l + key, vms, b, path, r, a, y);
    SilentArg(flag, vms, a, y);
  }
}
