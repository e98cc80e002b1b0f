/** The names a user gives meetings: tags and folders of `crates/kuali-core/src/meeting.rs`. */
module Tags {
  import opened Text
  import opened Wrappers

  const MAX_TAG_CHARS: nat := 24
  const MAX_FOLDER_CHARS: nat := 40
  const MAX_TAGS_PER_MEETING: nat := 12

  /** Collapses white space, keeps the first characters, and trims what the cut may have left. */
  function Normalize(name: string, limit: nat): string {
    var collapsed := Join(Words(name));
    Trim(if |collapsed| <= limit then collapsed else collapsed[..limit])
  }

  function SanitizeFolder(name: string): Option<string> {
    var normalized := Normalize(name, MAX_FOLDER_CHARS);
    if normalized == "" then None else Some(normalized)
  }

  /** A normalized name is clean and short, and normalizing it again changes nothing. */
  lemma NormalizeSettles(name: string, limit: nat)
    ensures Clean(Normalize(name, limit)) && |Normalize(name, limit)| <= limit
    ensures Normalize(Normalize(name, limit), limit) == Normalize(name, limit)
    ensures limit > 0 ==> (Normalize(name, limit) == "" <==> Words(name) == [])
  {
    var collapsed := Join(Words(name));
    var cut := if |collapsed| <= limit then collapsed else collapsed[..limit];
    CollapsedIsClean(name);
    if |collapsed| > limit {
      PrefixOfTidy(collapsed, limit);
    }
    TrimTidy(cut);
    if cut != [] {
      TidyStart(cut);
    }
    CleanIsNormal(Trim(cut), limit);
  }

  lemma TidyEnd(s: string)
    requires Tidy(s) && s != ""
    ensures Trim(s) == if IsSpace(s[|s| - 1]) then s[..|s| - 1] else s
  {
    TidyStart(s);
    if IsSpace(s[|s| - 1]) {
      assert TrimEnd(s) == TrimEnd(s[..|s| - 1]);
    }
  }

  /**
   The words of a name are kept with single blanks between them, up to the limit: a longer
   name loses what is behind it, and a blank the cut leaves at the end.
   */
  lemma NormalizeKeepsWords(name: string, limit: nat)
    requires limit > 0
    ensures var all := Join(Words(name));
            && Words(all) == Words(name) && Clean(all)
            && Normalize(name, limit) ==
               if |all| <= limit then all else if IsSpace(all[limit - 1]) then all[..limit - 1] else all[..limit]
  {
    var all := Join(Words(name));
    WordsArePlain(name);
    JoinedWords(Words(name));
    CollapsedIsClean(name);
    if |all| <= limit {
      TrimTidy(all);
    } else {
      PrefixOfTidy(all, limit);
      TidyEnd(all[..limit]);
      assert all[..limit][..limit - 1] == all[..limit - 1];
    }
  }

  lemma CleanIsNormal(name: string, limit: nat)
    requires Clean(name) && |name| <= limit
    ensures Normalize(name, limit) == name
  {
    CollapsingTidy(name);
    TrimTidy(name);
  }

  /** A folder is named exactly if the name has more than white space. */
  lemma FolderExactly(name: string)
    ensures SanitizeFolder(name) == None <==> Words(name) == []
  {
    NormalizeSettles(name, MAX_FOLDER_CHARS);
  }

  // ---- Tags; `fold` is the lower-case form that tells tags apart ----

  function Folds(tags: seq<string>, fold: string -> string): set<string> {
    if tags == [] then {} else Folds(tags[..|tags| - 1], fold) + {fold(tags[|tags| - 1])}
  }

  function Sanitized(tags: seq<string>, fold: string -> string): seq<string> {
    if tags == [] then []
    else
      var kept, next := Sanitized(tags[..|tags| - 1], fold), Normalize(tags[|tags| - 1], MAX_TAG_CHARS);
      if |kept| == MAX_TAGS_PER_MEETING || next == "" || fold(next) in Folds(kept, fold) then kept else kept + [next]
  }

  /** Tags as they are kept: clean, short, few, and no two alike. */
  predicate Settled(tags: seq<string>, fold: string -> string) {
    tags != [] ==>
      var front, last := tags[..|tags| - 1], tags[|tags| - 1];
      && Settled(front, fold) && |tags| <= MAX_TAGS_PER_MEETING
      && Clean(last) && 0 < |last| <= MAX_TAG_CHARS && fold(last) !in Folds(front, fold)
  }

  lemma SettledGrows(kept: seq<string>, next: string, fold: string -> string)
    requires Settled(kept, fold) && |kept| < MAX_TAGS_PER_MEETING
    requires Clean(next) && 0 < |next| <= MAX_TAG_CHARS && fold(next) !in Folds(kept, fold)
    ensures Settled(kept + [next], fold)
  {
    assert (kept + [next])[..|kept|] == kept;
  }

  lemma {:induction false} SanitizedIsSettled(tags: seq<string>, fold: string -> string)
    ensures Settled(Sanitized(tags, fold), fold) && |Sanitized(tags, fold)| <= MAX_TAGS_PER_MEETING
  {
    if tags != [] {
      var kept, next := Sanitized(tags[..|tags| - 1], fold), Normalize(tags[|tags| - 1], MAX_TAG_CHARS);
      SanitizedIsSettled(tags[..|tags| - 1], fold);
      NormalizeSettles(tags[|tags| - 1], MAX_TAG_CHARS);
      if |kept| < MAX_TAGS_PER_MEETING && next != "" && fold(next) !in Folds(kept, fold) {
        SettledGrows(kept, next, fold);
      }
    }
  }

  lemma {:induction false} SettledStays(tags: seq<string>, fold: string -> string)
    requires Settled(tags, fold)
    ensures Sanitized(tags, fold) == tags
  {
    if tags != [] {
      SettledParts(tags, fold);
      SettledStays(tags[..|tags| - 1], fold);
      LastTagStays(tags, tags[..|tags| - 1], tags[|tags| - 1], fold);
    }
  }

  lemma SettledParts(tags: seq<string>, fold: string -> string)
    requires Settled(tags, fold) && tags != []
    ensures var front, last := tags[..|tags| - 1], tags[|tags| - 1];
            && Settled(front, fold) && |front| < MAX_TAGS_PER_MEETING && tags == front + [last]
            && Clean(last) && 0 < |last| <= MAX_TAG_CHARS && fold(last) !in Folds(front, fold)
  {
  }

  lemma LastTagStays(tags: seq<string>, front: seq<string>, last: string, fold: string -> string)
    requires tags == front + [last] && Sanitized(front, fold) == front && |front| < MAX_TAGS_PER_MEETING
    requires Clean(last) && 0 < |last| <= MAX_TAG_CHARS && fold(last) !in Folds(front, fold)
    ensures Sanitized(tags, fold) == tags
  {
    CleanIsNormal(last, MAX_TAG_CHARS);
    assert tags[..|tags| - 1] == front;
  }

  /** Sanitizing sanitized tags changes nothing. */
  lemma SanitizingTwice(tags: seq<string>, fold: string -> string)
    ensures Sanitized(Sanitized(tags, fold), fold) == Sanitized(tags, fold)
  {
    SanitizedIsSettled(tags, fold);
    SettledStays(Sanitized(tags, fold), fold);
  }

  /** The lower-case forms of the tags that are not blank. */
  function FoldsGiven(tags: seq<string>, fold: string -> string): set<string> {
    if tags == [] then {}
    else
      var next := Normalize(tags[|tags| - 1], MAX_TAG_CHARS);
      FoldsGiven(tags[..|tags| - 1], fold) + if next == "" then {} else {fold(next)}
  }

  lemma FoldsGrow(kept: seq<string>, next: string, fold: string -> string)
    ensures Folds(kept + [next], fold) == Folds(kept, fold) + {fold(next)}
  {
    assert (kept + [next])[..|kept|] == kept;
  }

  /** Nothing is kept that was not given, and below the limit every tag given is kept in one spelling. */
  lemma {:induction false} EveryTagIsKept(tags: seq<string>, fold: string -> string)
    ensures Folds(Sanitized(tags, fold), fold) <= FoldsGiven(tags, fold)
    ensures |Sanitized(tags, fold)| < MAX_TAGS_PER_MEETING ==>
              Folds(Sanitized(tags, fold), fold) == FoldsGiven(tags, fold)
  {
    if tags != [] {
      EveryTagIsKept(tags[..|tags| - 1], fold);
      FoldsGrow(Sanitized(tags[..|tags| - 1], fold), Normalize(tags[|tags| - 1], MAX_TAG_CHARS), fold);
    }
  }

  /** The spelling kept is the one given first. */
  lemma {:induction false} FirstSpellingIsKept(tags: seq<string>, fold: string -> string, tag: string)
    requires tag in Sanitized(tags, fold)
    ensures exists k :: 0 <= k < |tags| && Normalize(tags[k], MAX_TAG_CHARS) == tag && fold(tag) !in FoldsGiven(tags[..k], fold)
  {
    var n := |tags| - 1;
    var front := tags[..n];
    if tag in Sanitized(front, fold) {
      FirstSpellingIsKept(front, fold, tag);
      var k :| 0 <= k < n && Normalize(front[k], MAX_TAG_CHARS) == tag && fold(tag) !in FoldsGiven(front[..k], fold);
      assert tags[k] == front[k] && tags[..k] == front[..k];
    } else {
      LastTagIsNew(tags, fold, tag);
    }
  }

  /** A tag that only the last name brings in was not given before. */
  lemma LastTagIsNew(tags: seq<string>, fold: string -> string, tag: string)
    requires tags != [] && tag in Sanitized(tags, fold) && tag !in Sanitized(tags[..|tags| - 1], fold)
    ensures var n := |tags| - 1;
            Normalize(tags[n], MAX_TAG_CHARS) == tag && fold(tag) !in FoldsGiven(tags[..n], fold)
  {
    EveryTagIsKept(tags[..|tags| - 1], fold);
    SanitizedIsSettled(tags[..|tags| - 1], fold);
  }

  method SanitizeTags(tags: seq<string>, fold: string -> string) returns (clean: seq<string>)
    ensures clean == Sanitized(tags, fold)
  {
    var seen: set<string> := {};
    clean := [];
    assert tags[..0] == [];
    for i := 0 to |tags|
      invariant clean == Sanitized(tags[..i], fold) && |clean| < MAX_TAGS_PER_MEETING
      invariant seen == Folds(clean, fold)
    {
      assert tags[..i + 1][..i] == tags[..i];
      var normalized := Normalize(tags[i], MAX_TAG_CHARS);
      if normalized == "" || fold(normalized) in seen {
        continue;
      }
      seen := seen + {fold(normalized)};
      FoldsGrow(clean, normalized, fold);
      clean := clean + [normalized];
      if |clean| == MAX_TAGS_PER_MEETING {
        FullStays(tags, i + 1, fold);
        return;
      }
    }
    assert tags[..|tags|] == tags;
  }

  lemma {:induction false} FullStays(tags: seq<string>, n: nat, fold: string -> string)
    requires n <= |tags| && |Sanitized(tags[..n], fold)| == MAX_TAGS_PER_MEETING
    ensures Sanitized(tags, fold) == Sanitized(tags[..n], fold)
  {
    if n < |tags| {
      assert tags[..|tags| - 1][..n] == tags[..n];
      FullStays(tags[..|tags| - 1], n, fold);
    } else {
      assert tags[..n] == tags;
    }
  }
}
