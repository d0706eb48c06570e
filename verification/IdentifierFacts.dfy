/** What folding, stripping and normalizing do to a name, character by character. */
module IdentifierFacts {
  import opened Identifiers

  /** The same letter in either case, or the same character. */
  predicate SameLetter(a: char, b: char) {
    a == b || ('A' <= a <= 'Z' && b as int == a as int + 32) || ('A' <= b <= 'Z' && a as int == b as int + 32)
  }

  predicate SameLetters(a: string, b: string) {
    |a| == |b| && forall i | 0 <= i < |a| :: SameLetter(a[i], b[i])
  }

  /** Folded names are equal exactly when the names differ at most in case, and hold no capital. */
  lemma FoldMeans(a: string, b: string)
    ensures Fold(a) == Fold(b) <==> SameLetters(a, b)
    ensures SameLetters(a, Fold(a)) && forall c | c in Fold(a) :: !('A' <= c <= 'Z')
  {
    if Fold(a) == Fold(b) {
      forall i | 0 <= i < |a| ensures SameLetter(a[i], b[i]) {
        assert Fold(a)[i] == Fold(b)[i];
      }
    }
  }

  predicate AllOf(s: string, drop: char -> bool) {
    forall c | c in s :: drop(c)
  }

  /** The text neither begins nor ends with such a character. */
  predicate Bare(s: string, drop: char -> bool) {
    s != "" ==> !drop(s[0]) && !drop(s[|s| - 1])
  }

  lemma {:induction false} DropsFront(before: string, s: string, drop: char -> bool)
    requires AllOf(before, drop) && (s != "" ==> !drop(s[0]))
    ensures DropWhile(before + s, drop) == s
  {
    if before == "" {
      assert before + s == s;
    } else {
      assert before[0] in before && (before + s)[1..] == before[1..] + s;
      DropsFront(before[1..], s, drop);
    }
  }

  lemma {:induction false} DropsBack(s: string, after: string, drop: char -> bool)
    requires AllOf(after, drop) && (s != "" ==> !drop(s[|s| - 1]))
    ensures DropWhileBack(s + after, drop) == s
  {
    if after == "" {
      assert s + after == s;
    } else {
      assert after[|after| - 1] in after && (s + after)[..|s + after| - 1] == s + after[..|after| - 1];
      DropsBack(s, after[..|after| - 1], drop);
    }
  }

  /** Stripping takes away what surrounds a text, and nothing of the text. */
  lemma StripMeans(before: string, s: string, after: string, drop: char -> bool)
    requires AllOf(before, drop) && AllOf(after, drop) && Bare(s, drop)
    ensures StripOf(before + s + after, drop) == s
  {
    if s == "" {
      assert before + s + after == (before + after) + "";
      DropsFront(before + after, "", drop);
    } else {
      assert before + s + after == before + (s + after);
      DropsFront(before, s + after, drop);
      DropsBack(s, after, drop);
    }
  }

  lemma {:induction false} LastFrom(s: string, n: nat, k: nat)
    requires k <= n <= |s| && (k == 0 || s[k - 1] == '.') && forall i | k <= i < n :: s[i] != '.'
    ensures DropWhileBackTo(s, n) == s[k..]
  {
    if n > k {
      LastFrom(s, n - 1, k);
    }
  }

  /** The last component of a qualified name, and of an unqualified one. */
  lemma LastPart(prefix: string, name: string)
    requires '.' !in name
    ensures LastComponent(prefix + "." + name) == name && LastComponent(name) == name
  {
    var s, k := prefix + "." + name, |prefix| + 1;
    forall i | k <= i < |s| ensures s[i] != '.' {
      assert s[i] == name[i - k];
    }
    LastFrom(s, |s|, k);
    LastFrom(name, |name|, 0);
  }

  /** Quoting is not blank. */
  lemma QuotedBare(quotes: string, core: string, quotes': string)
    requires AllOf(quotes, Quoting) && AllOf(quotes', Quoting) && Bare(core, Blank)
    ensures Bare(quotes + core + quotes', Blank)
  {
    var quoted := quotes + core + quotes';
    if quoted != "" {
      assert quoted[0] in quotes || (core != "" && quoted[0] == core[0]) || quoted[0] in quotes';
      var n := |quoted| - 1;
      assert quoted[n] in quotes' || (core != "" && quoted[n] == core[|core| - 1]) || quoted[n] in quotes;
    }
  }

  /** A quoted, blank-padded name, qualified or not, normalizes to the folded name. */
  lemma NormalizeMeans(blanks: string, quotes: string, core: string, quotes': string, blanks': string)
    requires AllOf(blanks, Blank) && AllOf(blanks', Blank) && AllOf(quotes, Quoting) && AllOf(quotes', Quoting)
    requires Bare(core, Quoting) && Bare(core, Blank)
    ensures Normalize(blanks + (quotes + core + quotes') + blanks') == LastComponent(Fold(core))
  {
    QuotedBare(quotes, core, quotes');
    StripMeans(blanks, quotes + core + quotes', blanks', Blank);
    QuotesDropped(quotes, core, quotes');
  }

  lemma QuotesDropped(quotes: string, core: string, quotes': string)
    requires AllOf(quotes, Quoting) && AllOf(quotes', Quoting) && Bare(core, Quoting)
    ensures StripOf(Fold(quotes + core + quotes'), Quoting) == Fold(core)
  {
    QuotesFolded(quotes);
    QuotesFolded(quotes');
    assert Fold(quotes + core + quotes') == quotes + Fold(core) + quotes';
    StripMeans(quotes, Fold(core), quotes', Quoting);
  }

  lemma QuotesFolded(quotes: string)
    requires AllOf(quotes, Quoting)
    ensures Fold(quotes) == quotes
  {
    forall i | 0 <= i < |quotes| ensures Fold(quotes)[i] == quotes[i] {
      assert quotes[i] in quotes;
    }
  }

  /** `schema."Name"` and the like. */
  lemma QualifiedMeans(blanks: string, quotes: string, prefix: string, name: string, quotes': string, blanks': string)
    requires AllOf(blanks, Blank) && AllOf(blanks', Blank) && AllOf(quotes, Quoting) && AllOf(quotes', Quoting)
    requires Bare(prefix + "." + name, Quoting) && Bare(prefix + "." + name, Blank) && '.' !in name
    ensures Normalize(blanks + (quotes + (prefix + "." + name) + quotes') + blanks') == Fold(name)
  {
    NormalizeMeans(blanks, quotes, prefix + "." + name, quotes', blanks');
    assert Fold(prefix + "." + name) == Fold(prefix) + "." + Fold(name);
    forall i | 0 <= i < |name| ensures Fold(name)[i] != '.' {
      assert name[i] in name;
    }
    LastPart(Fold(prefix), Fold(name));
  }

  // ---- Sorting ----

  lemma {:induction false} PrecedesTotal(a: string, b: string)
    ensures a == b || Precedes(a, b) || Precedes(b, a)
  {
    if a != [] && b != [] && a[0] == b[0] {
      PrecedesTotal(a[1..], b[1..]);
      assert a == [a[0]] + a[1..] && b == [b[0]] + b[1..];
    }
  }

  lemma {:induction false} PrecedesTransitive(a: string, b: string, c: string)
    requires Precedes(a, b) && Precedes(b, c)
    ensures Precedes(a, c)
  {
    if a != [] && a[0] == b[0] && b[0] == c[0] {
      PrecedesTransitive(a[1..], b[1..], c[1..]);
    }
  }

  predicate Ascending(names: seq<string>) {
    forall i, j | 0 <= i < j < |names| :: Precedes(names[i], names[j])
  }

  lemma {:induction false} InsertAscends(name: string, names: seq<string>)
    requires Ascending(names)
    ensures Ascending(InsertName(name, names))
  {
    if names != [] && name != names[0] {
      if Precedes(name, names[0]) {
        forall j | 0 <= j < |names| ensures Precedes(name, names[j]) {
          if j > 0 {
            PrecedesTransitive(name, names[0], names[j]);
          }
        }
      } else {
        PrecedesTotal(name, names[0]);
        InsertAscends(name, names[1..]);
        var rest := InsertName(name, names[1..]);
        forall j | 0 <= j < |rest| ensures Precedes(names[0], rest[j]) {
          assert rest[j] in rest;
          if rest[j] != name {
            var i :| 0 <= i < |names[1..]| && names[1..][i] == rest[j];
            assert names[i + 1] == rest[j];
          }
        }
      }
    }
  }

  /** The qualifiers of a FROM clause are taken in strictly ascending order. */
  lemma {:induction false} SortedSetAscends(names: seq<string>)
    ensures Ascending(SortedSet(names))
  {
    if names != [] {
      SortedSetAscends(names[1..]);
      InsertAscends(names[0], SortedSet(names[1..]));
    }
  }
}
