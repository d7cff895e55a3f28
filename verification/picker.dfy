/**
 * The browser page (public/script.js), separated from the DOM: the user list
 * flattened from the volume map and sorted, the search filter, keyboard
 * navigation over the filtered list, the display-name and image-status
 * lookups, and the log view's auto-scroll flag.
 */
module Picker {
  import opened Wrappers
  import Server

  /** One entry of `allUsers`. */
  datatype User = User(name: string, volume: string, volumeDisplay: string)

  function Min(a: int, b: int): int { if a <= b then a else b }
  function Max(a: int, b: int): int { if a <= b then b else a }

  // ----- getVolumeDisplayName -----

  /** The own properties of the display-name table. */
  function VolumeLabel(volume: string): Option<string> {
    if volume == "vol_1" then Some("Volume 1")
    else if volume == "vol_2" then Some("Volume 2")
    else if volume == "vol_3" then Some("Volume 3")
    else if volume == "vol_4" then Some("Volume 4")
    else if volume == "no_vol" then Some("General")
    else None
  }

  /** The display name of a volume: its label from the table, or the key itself. */
  function VolumeDisplayName(volume: string): (display: string)
    ensures VolumeLabel(volume).Some? ==> display == VolumeLabel(volume).value
    ensures VolumeLabel(volume).None? ==> display == volume
    ensures display == "General" <==> volume == "no_vol" || volume == "General"
  {
    match VolumeLabel(volume)
    case Some(l) => l
    case None => volume
  }

  /** A JavaScript value a property lookup can yield: a string, or a built-in inherited from `Object.prototype`. */
  datatype JsValue = JsString(s: string) | JsBuiltin(key: string)

  /** The property names every object literal inherits from `Object.prototype`. */
  const InheritedKeys: set<string> := {
    "constructor", "hasOwnProperty", "isPrototypeOf", "propertyIsEnumerable",
    "toLocaleString", "toString", "valueOf", "__proto__",
    "__defineGetter__", "__defineSetter__", "__lookupGetter__", "__lookupSetter__"
  }

  /**
   * `volumeNames[volume] || volume` as written: the lookup on an object
   * literal also finds the inherited built-ins, which are truthy.
   */
  function DisplayNameAsWritten(volume: string): (v: JsValue)
    ensures VolumeLabel(volume).Some? ==> v == JsString(VolumeLabel(volume).value)
    ensures volume in InheritedKeys ==> v == JsBuiltin(volume)
    ensures VolumeLabel(volume).None? && volume !in InheritedKeys ==> v == JsString(volume)
  {
    match VolumeLabel(volume)
    case Some(l) => JsString(l)
    case None => if volume in InheritedKeys then JsBuiltin(volume) else JsString(volume)
  }

  /** A volume keyed "constructor" or "toString" gets a built-in function, not a string, as its display name. */
  lemma InheritedKeyIsNotAString()
    ensures DisplayNameAsWritten("constructor") == JsBuiltin("constructor")
    ensures !DisplayNameAsWritten("toString").JsString?
  {
    assert "constructor" in InheritedKeys && "toString" in InheritedKeys;
  }

  /** The lookup as written and the own-property lookup agree on every key that is not inherited. */
  lemma DisplayNameAgreesOffInheritedKeys(volume: string)
    requires volume !in InheritedKeys
    ensures DisplayNameAsWritten(volume) == JsString(VolumeDisplayName(volume))
  {
  }

  // ----- getImageStatus -----

  /** The fields of an `imageCache` entry that the status depends on. */
  datatype ImageEntry = ImageEntry(loaded: bool, error: bool)

  datatype ImageStatus = Loading | Loaded | Failed

  /** The avatar state of an image path: an error wins over loaded; an absent entry is still loading. */
  function GetImageStatus(cache: map<string, ImageEntry>, src: string): (status: ImageStatus)
    ensures status == Failed <==> src in cache && cache[src].error
    ensures status == Loaded <==> src in cache && !cache[src].error && cache[src].loaded
    ensures src !in cache ==> status == Loading
  {
    if src !in cache then Loading
    else if cache[src].error then Failed
    else if cache[src].loaded then Loaded
    else Loading
  }

  // ----- isInputElement -----

  /** A focused element, by the two properties `isInputElement` reads. */
  datatype Element = Element(tagName: string, contentEditable: string)

  /** ASCII lower-casing of one character. */
  function LowerChar(c: char): char {
    if 'A' <= c <= 'Z' then (c as int + 32) as char else c
  }

  /** `toLowerCase`, on the ASCII letters. */
  function ToLower(s: string): string {
    seq(|s|, i requires 0 <= i < |s| => LowerChar(s[i]))
  }

  /** Whether the focused element takes text: an input, textarea or select (any case), or an editable element. */
  function IsInputElement(element: Option<Element>): (r: bool)
    ensures element.None? ==> !r
    ensures element.Some? && element.value.contentEditable == "true" ==> r
    ensures element.Some? && element.value.contentEditable != "true" ==>
      (r <==> ToLower(element.value.tagName) in ["input", "textarea", "select"])
  {
    match element
    case None => false
    case Some(e) => ToLower(e.tagName) in ["input", "textarea", "select"] || e.contentEditable == "true"
  }

  // ----- loadUserList: flattening -----

  /** The users of one volume, in their listed order. */
  function Row(volume: string, names: seq<string>): seq<User> {
    seq(|names|, k requires 0 <= k < |names| => User(names[k], volume, VolumeDisplayName(volume)))
  }

  /** The number of (volume, user) pairs in a volume map. */
  function TotalUsers(entries: Server.VolumeMap): nat {
    if entries == [] then 0
    else TotalUsers(entries[..|entries| - 1]) + |entries[|entries| - 1].1|
  }

  /** The flattened list the nested loops of `loadUserList` build, volume by volume. */
  function Flattened(entries: Server.VolumeMap): (users: seq<User>)
    ensures |users| == TotalUsers(entries)
    ensures forall u :: u in users ==> u.volumeDisplay == VolumeDisplayName(u.volume)
  {
    if entries == [] then []
    else
      var last := entries[|entries| - 1];
      Flattened(entries[..|entries| - 1]) + Row(last.0, last.1)
  }

  /**
   * The pair (volume i, user j) sits at its own offset in the flattened
   * list, carrying its volume and display name; with the length being the
   * number of pairs, the list holds exactly one entry per pair.
   */
  lemma {:induction false} FlattenedAt(entries: Server.VolumeMap, i: nat, j: nat)
    requires i < |entries| && j < |entries[i].1|
    ensures TotalUsers(entries[..i]) + j < |Flattened(entries)|
    ensures Flattened(entries)[TotalUsers(entries[..i]) + j]
            == User(entries[i].1[j], entries[i].0, VolumeDisplayName(entries[i].0))
  {
    var n := |entries| - 1;
    var init := entries[..n];
    assert init[..i] == entries[..i] by { assert i <= n; }
    if i == n {
      assert init == entries[..i];
    } else {
      assert init[i] == entries[i];
      FlattenedAt(init, i, j);
      assert TotalUsers(entries[..i]) + j < TotalUsers(init);
    }
  }

  /** The nested loops of `loadUserList` that push one user record per (volume, user) pair. */
  method FlattenVolumes(entries: Server.VolumeMap) returns (users: seq<User>)
    ensures users == Flattened(entries)
  {
    users := [];
    for i := 0 to |entries|
      invariant users == Flattened(entries[..i])
    {
      var volume := entries[i].0;
      var names := entries[i].1;
      var display := VolumeDisplayName(volume);
      for j := 0 to |names|
        invariant users == Flattened(entries[..i]) + Row(volume, names[..j])
      {
        assert Row(volume, names[..j + 1]) == Row(volume, names[..j]) + [User(names[j], volume, display)];
        users := users + [User(names[j], volume, display)];
      }
      assert names[..|names|] == names;
      assert entries[..i + 1][..i] == entries[..i];
    }
    assert entries[..|entries|] == entries;
  }

  /** The list used when the volume map cannot be fetched or read. */
  const FallbackUsers: seq<User> := [
    User("Sri", "vol_1", "Volume 1"),
    User("Bharath", "vol_1", "Volume 1"),
    User("Pavan", "vol_2", "Volume 2"),
    User("Moulika", "vol_2", "Volume 2"),
    User("Abhijith", "vol_3", "Volume 3"),
    User("Abhiram", "vol_3", "Volume 3"),
    User("Sneha", "vol_3", "Volume 3"),
    User("Shakthi", "vol_4", "Volume 4"),
    User("Intern", "no_vol", "General")
  ]

  /** The fallback list is the server's default map flattened, left in volume order (not sorted). */
  lemma FallbackIsDefaultFlattened()
    ensures FallbackUsers == Flattened(Server.DefaultVolumeMap)
  {
    var m := Server.DefaultVolumeMap;
    var f := FallbackUsers;
    assert m[..1][..0] == [] && m[..2][..1] == m[..1] && m[..3][..2] == m[..2];
    assert m[..4][..3] == m[..3] && m[..5][..4] == m[..4] && m[..5] == m;
    assert VolumeDisplayName("vol_1") == "Volume 1" && VolumeDisplayName("vol_2") == "Volume 2";
    assert VolumeDisplayName("vol_3") == "Volume 3" && VolumeDisplayName("vol_4") == "Volume 4";
    assert VolumeDisplayName("no_vol") == "General";
    assert Row("vol_1", ["Sri", "Bharath"]) == f[..2];
    assert Row("vol_2", ["Pavan", "Moulika"]) == f[2..4];
    assert Row("vol_3", ["Abhijith", "Abhiram", "Sneha"]) == f[4..7];
    assert Row("vol_4", ["Shakthi"]) == f[7..8];
    assert Row("no_vol", ["Intern"]) == f[8..];
    assert Flattened(m[..1]) == f[..2];
    assert Flattened(m[..2]) == f[..2] + f[2..4] == f[..4];
    assert Flattened(m[..3]) == f[..4] + f[4..7] == f[..7];
    assert Flattened(m[..4]) == f[..7] + f[7..8] == f[..8];
    assert Flattened(m[..5]) == f[..8] + f[8..] == f;
  }

  // ----- loadUserList: sorting -----

  /** `before(a, b)` stands for `a.localeCompare(b) <= 0`: a total preorder on names. */
  ghost predicate TotalPreorder(before: (string, string) -> bool) {
    && (forall a, b :: before(a, b) || before(b, a))
    && (forall a, b, c :: before(a, b) && before(b, c) ==> before(a, c))
  }

  ghost predicate SortedByName(users: seq<User>, before: (string, string) -> bool) {
    forall i, j :: 0 <= i < j < |users| ==> before(users[i].name, users[j].name)
  }

  /** A user ordered before every user of a sorted list can head it. */
  lemma ConsSorted(first: User, rest: seq<User>, before: (string, string) -> bool)
    requires SortedByName(rest, before)
    requires forall k :: 0 <= k < |rest| ==> before(first.name, rest[k].name)
    ensures SortedByName([first] + rest, before)
  {
    var r := [first] + rest;
    forall i, j | 0 <= i < j < |r|
      ensures before(r[i].name, r[j].name)
    {
      assert r[j] == rest[j - 1];
      if i > 0 {
        assert r[i] == rest[i - 1];
      }
    }
  }

  /** The head of a sorted list is ordered before every user of the tail with one more user inserted. */
  lemma HeadBeforeInserted(first: User, tail: seq<User>, u: User, rest: seq<User>, before: (string, string) -> bool)
    requires SortedByName([first] + tail, before) && before(first.name, u.name)
    requires multiset(rest) == multiset(tail) + multiset{u}
    ensures forall k :: 0 <= k < |rest| ==> before(first.name, rest[k].name)
  {
    forall k | 0 <= k < |rest|
      ensures before(first.name, rest[k].name)
    {
      assert rest[k] in multiset(rest);
      if rest[k] != u {
        assert rest[k] in multiset(tail);
        var m :| 0 <= m < |tail| && tail[m] == rest[k];
        assert ([first] + tail)[0] == first && ([first] + tail)[m + 1] == rest[k];
      }
    }
  }

  /** Inserts a user ahead of the first user whose name it is ordered before. */
  function InsertByName(u: User, users: seq<User>, before: (string, string) -> bool): (r: seq<User>)
    requires TotalPreorder(before) && SortedByName(users, before)
    ensures SortedByName(r, before)
    ensures multiset(r) == multiset(users) + multiset{u}
  {
    if users == [] || before(u.name, users[0].name) then [u] + users
    else
      var first, tail := users[0], users[1..];
      assert users == [first] + tail;
      var rest := InsertByName(u, tail, before);
      assert before(first.name, u.name);
      HeadBeforeInserted(first, tail, u, rest, before);
      ConsSorted(first, rest, before);
      [first] + rest
  }

  /** `allUsers.sort` by name under the order `before`: sorted, and a permutation of its input. */
  function SortByName(users: seq<User>, before: (string, string) -> bool): (r: seq<User>)
    requires TotalPreorder(before)
    ensures SortedByName(r, before)
    ensures multiset(r) == multiset(users)
  {
    if users == [] then []
    else
      assert users == [users[0]] + users[1..];
      InsertByName(users[0], SortByName(users[1..], before), before)
  }

  // ----- handleSearch -----

  /** The characters `String.prototype.trim` removes (white space and line terminators). */
  predicate IsJsSpace(c: char) {
    c == '\t' || c == '\n' || c == '\U{B}' || c == '\U{C}' || c == '\r' || c == ' '
    || c == '\U{A0}' || c == '\U{1680}' || ('\U{2000}' <= c <= '\U{200A}')
    || c == '\U{2028}' || c == '\U{2029}' || c == '\U{202F}' || c == '\U{205F}'
    || c == '\U{3000}' || c == '\U{FEFF}'
  }

  /** Drops leading white space: the result is a suffix that starts with a non-space. */
  function TrimStart(s: string): (r: string)
    ensures |r| <= |s| && r == s[|s| - |r|..]
    ensures forall i :: 0 <= i < |s| - |r| ==> IsJsSpace(s[i])
    ensures r == [] || !IsJsSpace(r[0])
  {
    if s != [] && IsJsSpace(s[0]) then TrimStart(s[1..]) else s
  }

  /** Drops trailing white space: the result is a prefix that ends with a non-space. */
  function TrimEnd(s: string): (r: string)
    ensures |r| <= |s| && r == s[..|r|]
    ensures forall i :: |r| <= i < |s| ==> IsJsSpace(s[i])
    ensures r == [] || !IsJsSpace(r[|r| - 1])
  {
    if s != [] && IsJsSpace(s[|s| - 1]) then TrimEnd(s[..|s| - 1]) else s
  }

  /** `r` is `s` with `k` leading and some trailing characters removed, all of them white space. */
  predicate StrippedAt(s: string, r: string, k: int) {
    && 0 <= k && k + |r| <= |s| && r == s[k..k + |r|]
    && (forall i :: 0 <= i < k ==> IsJsSpace(s[i]))
    && (forall i :: k + |r| <= i < |s| ==> IsJsSpace(s[i]))
  }

  /** `trim`: the longest infix without white space at either end. */
  function Trim(s: string): (r: string)
    ensures r == [] || (!IsJsSpace(r[0]) && !IsJsSpace(r[|r| - 1]))
    ensures r == [] <==> forall i :: 0 <= i < |s| ==> IsJsSpace(s[i])
    ensures exists k :: StrippedAt(s, r, k)
  {
    var a := TrimStart(s);
    var r := TrimEnd(a);
    assert s[|s| - |a|..|s| - |a| + |r|] == a[..|r|];
    assert StrippedAt(s, r, |s| - |a|);
    r
  }

  /** `haystack.includes(needle)`. */
  predicate Contains(haystack: string, needle: string) {
    needle <= haystack || (haystack != [] && Contains(haystack[1..], needle))
  }

  /** The needle occurs in the haystack starting at offset `k`. */
  predicate OccursAt(haystack: string, needle: string, k: int) {
    0 <= k <= |haystack| - |needle| && haystack[k..k + |needle|] == needle
  }

  /** `includes` means: the needle occurs at some offset of the haystack. */
  lemma {:induction false} ContainsIffOccurs(haystack: string, needle: string)
    ensures Contains(haystack, needle) <==> exists k :: OccursAt(haystack, needle, k)
  {
    if needle <= haystack {
      assert OccursAt(haystack, needle, 0);
    } else if haystack == [] {
    } else {
      ContainsIffOccurs(haystack[1..], needle);
      if exists k :: OccursAt(haystack, needle, k) {
        var k :| OccursAt(haystack, needle, k);
        assert k != 0;
        assert OccursAt(haystack[1..], needle, k - 1);
      }
      if Contains(haystack[1..], needle) {
        var k :| OccursAt(haystack[1..], needle, k);
        assert OccursAt(haystack, needle, k + 1);
      }
    }
  }

  /** The search condition on one user: lower-cased name or display name includes the term. */
  predicate Matches(u: User, term: string) {
    Contains(ToLower(u.name), term) || Contains(ToLower(u.volumeDisplay), term)
  }

  /** `xs` is `ys` with some elements left out, order kept. */
  ghost predicate IsSubsequence<T>(xs: seq<T>, ys: seq<T>) {
    if xs == [] then true
    else if ys == [] then false
    else if xs[0] == ys[0] then IsSubsequence(xs[1..], ys[1..])
    else IsSubsequence(xs, ys[1..])
  }

  lemma {:induction false} SubsequenceOfItself<T>(xs: seq<T>)
    ensures IsSubsequence(xs, xs)
  {
    if xs != [] {
      SubsequenceOfItself(xs[1..]);
    }
  }

  /**
   * `allUsers.filter(...)`: the users that match, in their order, each as
   * many times as it occurs in the input.
   */
  function FilterUsers(users: seq<User>, term: string): (r: seq<User>)
    ensures IsSubsequence(r, users)
    ensures forall u :: multiset(r)[u] == if Matches(u, term) then multiset(users)[u] else 0
  {
    if users == [] then []
    else
      assert users == [users[0]] + users[1..];
      if Matches(users[0], term) then [users[0]] + FilterUsers(users[1..], term)
      else FilterUsers(users[1..], term)
  }

  /** Every name includes the empty term, so the blank-term shortcut gives what filtering would. */
  lemma {:induction false} FilterByEmptyTermKeepsAll(users: seq<User>)
    ensures FilterUsers(users, "") == users
  {
    if users != [] {
      assert Matches(users[0], "");
      FilterByEmptyTermKeepsAll(users[1..]);
    }
  }

  /** What `handleSearch` shows for the raw input: all users for a blank term, else the matches. */
  function SearchResult(allUsers: seq<User>, input: string): (r: seq<User>)
    ensures IsSubsequence(r, allUsers)
    ensures Trim(ToLower(input)) == "" ==> r == allUsers
    ensures forall u :: multiset(r)[u] == if Matches(u, Trim(ToLower(input))) then multiset(allUsers)[u] else 0
  {
    var term := Trim(ToLower(input));
    if term == "" then
      SubsequenceOfItself(allUsers);
      assert forall u: User :: Matches(u, term) by {
        forall u: User ensures Matches(u, term) { assert term <= ToLower(u.name); }
      }
      allUsers
    else FilterUsers(allUsers, term)
  }

  // ----- handleKeyNavigation: Enter -----

  /** The user Enter selects: the highlighted one when in range, else the only one, else none. */
  function EnterChoice(users: seq<User>, index: int): (picked: Option<User>)
    ensures picked.Some? ==> picked.value in users
    ensures 0 <= index < |users| ==> picked == Some(users[index])
    ensures !(0 <= index < |users|) ==> (picked.Some? <==> |users| == 1)
  {
    if 0 <= index < |users| then Some(users[index])
    else if |users| == 1 then Some(users[0])
    else None
  }

  /** The keys `handleKeyNavigation` distinguishes. */
  datatype Key = ArrowDown | ArrowUp | Enter | Escape | OtherKey

  /** The selection state of the page: the module-level variables the handlers update. */
  class UserPicker {
    var allUsers: seq<User>
    var filteredUsers: seq<User>
    var selectedIndex: int
    var dropdownVisible: bool
    var currentUser: Option<string>

    /** The filtered list comes from the full list, and the index is -1 or at most the last position (0 for an empty list). */
    ghost predicate Valid()
      reads this
    {
      && IsSubsequence(filteredUsers, allUsers)
      && -1 <= selectedIndex <= Max(|filteredUsers| - 1, 0)
    }

    constructor ()
      ensures Valid()
      ensures allUsers == [] && filteredUsers == [] && selectedIndex == -1
      ensures !dropdownVisible && currentUser == None
    {
      allUsers, filteredUsers, selectedIndex := [], [], -1;
      dropdownVisible, currentUser := false, None;
    }

    /**
     * `loadUserList`, run once before any handler is installed: the fetched
     * map flattened and sorted by name, or the fallback list when fetching or
     * reading it failed; the filtered list becomes a copy.
     */
    method LoadUserList(fetched: Option<Server.VolumeMap>, before: (string, string) -> bool)
      requires Valid() && selectedIndex == -1
      requires TotalPreorder(before)
      modifies this
      ensures Valid()
      ensures fetched.Some? ==> allUsers == SortByName(Flattened(fetched.value), before)
      ensures fetched.None? ==> allUsers == FallbackUsers
      ensures filteredUsers == allUsers
      ensures selectedIndex == old(selectedIndex) && dropdownVisible == old(dropdownVisible)
      ensures currentUser == old(currentUser)
    {
      match fetched {
        case Some(entries) =>
          var flat := FlattenVolumes(entries);
          allUsers := SortByName(flat, before);
        case None =>
          allUsers := FallbackUsers;
      }
      filteredUsers := allUsers;
      SubsequenceOfItself(allUsers);
    }

    /** `handleSearch`: filter by the trimmed, lower-cased input, highlight the first match, show the dropdown. */
    method HandleSearch(input: string)
      requires Valid()
      modifies this
      ensures Valid()
      ensures filteredUsers == SearchResult(allUsers, input)
      ensures selectedIndex == if filteredUsers != [] then 0 else -1
      ensures dropdownVisible
      ensures allUsers == old(allUsers) && currentUser == old(currentUser)
    {
      filteredUsers := SearchResult(allUsers, input);
      selectedIndex := if |filteredUsers| > 0 then 0 else -1;
      dropdownVisible := true;
    }

    /** `showDropdown`. */
    method ShowDropdown()
      requires Valid()
      modifies this
      ensures Valid()
      ensures dropdownVisible
      ensures allUsers == old(allUsers) && filteredUsers == old(filteredUsers)
      ensures selectedIndex == old(selectedIndex) && currentUser == old(currentUser)
    {
      dropdownVisible := true;
    }

    /** `hideDropdown`: hides the list and clears the highlight. */
    method HideDropdown()
      requires Valid()
      modifies this
      ensures Valid()
      ensures !dropdownVisible && selectedIndex == -1
      ensures allUsers == old(allUsers) && filteredUsers == old(filteredUsers)
      ensures currentUser == old(currentUser)
    {
      dropdownVisible := false;
      selectedIndex := -1;
    }

    /** The mouse entering the rendered item at `index` highlights it. */
    method HoverItem(index: int)
      requires Valid() && 0 <= index < |filteredUsers|
      modifies this
      ensures Valid()
      ensures selectedIndex == index
      ensures allUsers == old(allUsers) && filteredUsers == old(filteredUsers)
      ensures dropdownVisible == old(dropdownVisible) && currentUser == old(currentUser)
    {
      selectedIndex := index;
    }

    /** `selectUser`: remembers the user's name and hides the dropdown. */
    method SelectUser(u: User)
      requires Valid()
      modifies this
      ensures Valid()
      ensures currentUser == Some(u.name)
      ensures !dropdownVisible && selectedIndex == -1
      ensures allUsers == old(allUsers) && filteredUsers == old(filteredUsers)
    {
      currentUser := Some(u.name);
      HideDropdown();
    }

    /**
     * `handleKeyNavigation`. With the dropdown hidden, any key but Escape
     * shows it. Otherwise ArrowDown moves down but not past the last entry,
     * ArrowUp moves up but not below 0, Enter selects (see `EnterChoice`)
     * and Escape hides the dropdown.
     */
    method HandleKey(key: Key) returns (picked: Option<User>)
      requires Valid()
      modifies this
      ensures Valid()
      ensures allUsers == old(allUsers) && filteredUsers == old(filteredUsers)
      ensures !old(dropdownVisible) ==>
        && picked == None && selectedIndex == old(selectedIndex) && currentUser == old(currentUser)
        && dropdownVisible == (key != Escape)
      ensures old(dropdownVisible) && key == ArrowDown ==>
        && selectedIndex == Min(old(selectedIndex) + 1, |filteredUsers| - 1)
        && selectedIndex <= |filteredUsers| - 1
        && picked == None && dropdownVisible && currentUser == old(currentUser)
      ensures old(dropdownVisible) && key == ArrowUp ==>
        && selectedIndex == Max(old(selectedIndex) - 1, 0)
        && selectedIndex >= 0
        && picked == None && dropdownVisible && currentUser == old(currentUser)
      ensures old(dropdownVisible) && key == Enter ==>
        && picked == EnterChoice(filteredUsers, old(selectedIndex))
        && (picked.Some? ==> currentUser == Some(picked.value.name) && !dropdownVisible && selectedIndex == -1)
        && (picked.None? ==> currentUser == old(currentUser) && dropdownVisible && selectedIndex == old(selectedIndex))
      ensures old(dropdownVisible) && key == Escape ==>
        picked == None && !dropdownVisible && selectedIndex == -1 && currentUser == old(currentUser)
      ensures old(dropdownVisible) && key == OtherKey ==>
        picked == None && dropdownVisible && selectedIndex == old(selectedIndex) && currentUser == old(currentUser)
    {
      picked := None;
      if !dropdownVisible {
        if key != Escape {
          ShowDropdown();
        }
        return;
      }
      match key
      case ArrowDown =>
        selectedIndex := Min(selectedIndex + 1, |filteredUsers| - 1);
      case ArrowUp =>
        selectedIndex := Max(selectedIndex - 1, 0);
      case Enter =>
        if 0 <= selectedIndex < |filteredUsers| {
          picked := Some(filteredUsers[selectedIndex]);
        } else if |filteredUsers| == 1 {
          picked := Some(filteredUsers[0]);
        }
        if picked.Some? {
          SelectUser(picked.value);
        }
      case Escape =>
        HideDropdown();
      case OtherKey =>
    }

    /**
     * `showSelectionPage` once its timers have fired: the search is cleared,
     * the full list restored with nothing highlighted, the user forgotten and
     * the dropdown shown.
     */
    method ShowSelectionPage()
      requires Valid()
      modifies this
      ensures Valid()
      ensures filteredUsers == allUsers && selectedIndex == -1
      ensures currentUser == None && dropdownVisible
      ensures allUsers == old(allUsers)
    {
      currentUser := None;
      filteredUsers := allUsers;
      selectedIndex := -1;
      SubsequenceOfItself(allUsers);
      ShowDropdown();
    }
  }

  // ----- handleLogsScroll -----

  /** How close to the bottom, in pixels, still counts as "at the bottom". */
  const ScrollBuffer := 20

  /** The log view's auto-scroll flag and the jump-to-bottom button it drives. */
  class LogScroller {
    var autoScrollEnabled: bool
    var jumpShown: bool
    /** How many times `updateJumpButtonState` ran. */
    ghost var buttonUpdates: nat

    /** The jump button is shown exactly when auto-scroll is off. */
    ghost predicate Valid()
      reads this
    {
      jumpShown == !autoScrollEnabled
    }

    constructor ()
      ensures Valid() && autoScrollEnabled && buttonUpdates == 0
    {
      autoScrollEnabled, jumpShown := true, false;
      buttonUpdates := 0;
    }

    /** `updateJumpButtonState`. */
    method UpdateJumpButton()
      modifies this
      ensures Valid()
      ensures autoScrollEnabled == old(autoScrollEnabled)
      ensures buttonUpdates == old(buttonUpdates) + 1
    {
      jumpShown := !autoScrollEnabled;
      buttonUpdates := buttonUpdates + 1;
    }

    /**
     * `handleLogsScroll`: auto-scroll is on exactly when the view is within
     * the buffer of the bottom; the button is refreshed only when that flips.
     */
    method HandleLogsScroll(scrollHeight: int, scrollTop: int, clientHeight: int)
      requires Valid()
      modifies this
      ensures Valid()
      ensures autoScrollEnabled <==> scrollHeight - scrollTop - clientHeight <= ScrollBuffer
      ensures buttonUpdates == old(buttonUpdates) + if autoScrollEnabled != old(autoScrollEnabled) then 1 else 0
    {
      var distanceFromBottom := scrollHeight - scrollTop - clientHeight;
      var wasEnabled := autoScrollEnabled;
      autoScrollEnabled := distanceFromBottom <= ScrollBuffer;
      if wasEnabled != autoScrollEnabled {
        UpdateJumpButton();
      }
    }

    /** The jump button's click, and the reset `startLogPolling` does: auto-scroll back on, button hidden. */
    method JumpToBottom()
      modifies this
      ensures Valid()
      ensures autoScrollEnabled && !jumpShown
      ensures buttonUpdates == old(buttonUpdates) + 1
    {
      autoScrollEnabled := true;
      UpdateJumpButton();
    }
  }
}
