/** The scoped view: what one grant may learn of a housefile, and what it may command. */
module ScopedViews {
  import opened Outcomes
  import opened House
  import opened Grants

  datatype Header = Header(id: string, agent: string, scopes: seq<Scope>, window: Window)

  datatype PolicyView = PolicyView(quietStart: string, quietEnd: string, timezone: string, teleop: string)

  /** An empty note and a false `outdoor` stand for the absent fields. */
  datatype ZoneView =
    | NoGoZone(id: string, boundary: Boundary)
    | HiddenZone(id: string)
    | ShownZone(id: string, name: string, access: Access, boundary: Boundary, note: string, outdoor: bool)

  datatype QuirkView = QuirkView(zone: string, text: string)

  datatype SystemView = SystemView(name: string, zone: string, detail: string)

  datatype ItemView = ItemView(name: string, zone: string, flags: seq<Flag>, note: string)

  datatype SafetyView = SafetyView(zone: string, flags: seq<Flag>)

  datatype View =
    | InactiveView(schema: string, grant: string, status: Status)
    | View(schema: string, header: Header, policies: PolicyView, zones: Option<seq<ZoneView>>,
           quirks: Option<seq<QuirkView>>, systems: Option<seq<SystemView>>, inventory: Option<seq<ItemView>>,
           safety: seq<SafetyView>, capabilities: seq<Scope>)

  // ---------------------------------------------------------------- the view

  /** Zones the grant names, that exist, and that are not no-go. */
  function Granted(file: Housefile, g: Grant): set<string> {
    set id | id in g.zones && Grantable(file, id)
  }

  predicate IsSafety(f: Flag) {
    f.Fragile? || f.DoNotTouch?
  }

  predicate IsCommand(s: Scope) {
    s.CmdNavigate? || s.CmdManipulate?
  }

  function ZoneOf(z: Zone, granted: set<string>): ZoneView {
    if z.access == NoGo then NoGoZone(z.id, z.boundary)
    else if z.id !in granted then HiddenZone(z.id)
    else ShownZone(z.id, z.name, z.access, z.boundary, z.note, z.outdoor)
  }

  function ZoneViews(zones: seq<Zone>, granted: set<string>): (v: seq<ZoneView>)
    ensures |v| == |zones|
    ensures forall i :: 0 <= i < |zones| ==> v[i] == ZoneOf(zones[i], granted)
  {
    seq(|zones|, i requires 0 <= i < |zones| => ZoneOf(zones[i], granted))
  }

  function QuirkViews(quirks: seq<Quirk>, granted: set<string>): seq<QuirkView> {
    if quirks == [] then []
    else (if quirks[0].zone in granted then [QuirkView(quirks[0].zone, quirks[0].text)] else [])
         + QuirkViews(quirks[1..], granted)
  }

  function SystemViews(systems: seq<SystemItem>, granted: set<string>): seq<SystemView> {
    if systems == [] then []
    else (if systems[0].zone in granted then [SystemView(systems[0].name, systems[0].zone, systems[0].detail)] else [])
         + SystemViews(systems[1..], granted)
  }

  function ItemViews(items: seq<InventoryItem>, granted: set<string>): seq<ItemView> {
    if items == [] then []
    else (if items[0].zone in granted then [ItemView(items[0].name, items[0].zone, items[0].flags, items[0].note)] else [])
         + ItemViews(items[1..], granted)
  }

  function SafetyFlags(flags: seq<Flag>): (s: seq<Flag>)
    ensures forall f :: f in s <==> f in flags && IsSafety(f)
  {
    if flags == [] then []
    else (if IsSafety(flags[0]) then [flags[0]] else []) + SafetyFlags(flags[1..])
  }

  /** Safety flags are disclosed for granted zones whatever the scopes. */
  function SafetyViews(items: seq<InventoryItem>, granted: set<string>): seq<SafetyView> {
    if items == [] then []
    else (if items[0].zone in granted && SafetyFlags(items[0].flags) != [] then
            [SafetyView(items[0].zone, SafetyFlags(items[0].flags))]
          else [])
         + SafetyViews(items[1..], granted)
  }

  function Capabilities(scopes: seq<Scope>): (c: seq<Scope>)
    ensures forall s :: s in c <==> s in scopes && IsCommand(s)
  {
    if scopes == [] then []
    else (if IsCommand(scopes[0]) then [scopes[0]] else []) + Capabilities(scopes[1..])
  }

  function PoliciesOf(p: Policies): PolicyView {
    PolicyView(p.quietStart, p.quietEnd, p.timezone, p.teleop)
  }

  /** `scoped_view`. */
  function ScopedView(file: Housefile, g: Grant): View {
    if g.status != Active then InactiveView(file.schema, g.id, g.status)
    else
      var granted := Granted(file, g);
      var layout := ReadLayout in g.scopes;
      View(file.schema, Header(g.id, g.name, g.scopes, g.window), PoliciesOf(file.policies),
           if layout then Some(ZoneViews(file.zones, granted)) else None,
           if layout then Some(QuirkViews(file.quirks, granted)) else None,
           if ReadSystems in g.scopes then Some(SystemViews(file.systems, granted)) else None,
           if ReadInventory in g.scopes then Some(ItemViews(file.inventory, granted)) else None,
           SafetyViews(file.inventory, granted),
           Capabilities(g.scopes))
  }

  // ---------------------------------------------------------------- what may be learned

  /** Two zones in the same place that this grant may not tell apart: both no-go with the
      same boundary, both granted with the same contents, or both neither. */
  predicate ZonesAlike(a: Zone, b: Zone, granted: set<string>) {
    && a.id == b.id && (a.access == NoGo <==> b.access == NoGo)
    && (a.access == NoGo ==> a.boundary == b.boundary)
    && (a.access != NoGo && a.id in granted ==> a == b)
  }

  /** What a quirk, a system or an item may be known by: every field a view ever names. */
  function QuirkFact(q: Quirk): QuirkView {
    QuirkView(q.zone, q.text)
  }

  function SystemFact(s: SystemItem): SystemView {
    SystemView(s.name, s.zone, s.detail)
  }

  function ItemFact(i: InventoryItem): ItemView {
    ItemView(i.name, i.zone, i.flags, i.note)
  }

  function Facts<T, U>(items: seq<T>, fact: T -> U): (facts: seq<U>)
    ensures |facts| == |items| && forall i :: 0 <= i < |items| ==> facts[i] == fact(items[i])
  {
    seq(|items|, i requires 0 <= i < |items| => fact(items[i]))
  }

  /** Those in granted zones, in their order. */
  function Inside<T>(facts: seq<T>, zone: T -> string, granted: set<string>): (kept: seq<T>) {
    if facts == [] then []
    else (if zone(facts[0]) in granted then [facts[0]] else []) + Inside(facts[1..], zone, granted)
  }

  function QuirksInside(quirks: seq<Quirk>, granted: set<string>): seq<QuirkView> {
    Inside(Facts(quirks, QuirkFact), (q: QuirkView) => q.zone, granted)
  }

  function SystemsInside(systems: seq<SystemItem>, granted: set<string>): seq<SystemView> {
    Inside(Facts(systems, SystemFact), (s: SystemView) => s.zone, granted)
  }

  function ItemsInside(items: seq<InventoryItem>, granted: set<string>): seq<ItemView> {
    Inside(Facts(items, ItemFact), (i: ItemView) => i.zone, granted)
  }

  /** Agreement on what the grant may learn, scope by scope. For an active grant: the
      schema, the disclosed policies and the warnings; under `read:layout` zone ids and
      order, no-go boundaries, granted zones and quirks; under `read:systems` and
      `read:inventory` the facts about those in granted zones. Everything else is free. For
      any other grant only the schema counts. */
  predicate Agree(f: Housefile, h: Housefile, g: Grant) {
    && f.schema == h.schema
    && (g.status == Active ==> ContentsAgree(f, h, g))
  }

  predicate ContentsAgree(f: Housefile, h: Housefile, g: Grant) {
    var mine, yours := Granted(f, g), Granted(h, g);
    && PoliciesAgree(f.policies, h.policies)
    && (ReadLayout in g.scopes ==>
          && LayoutAgrees(f, h, mine)
          && QuirksInside(f.quirks, mine) == QuirksInside(h.quirks, yours))
    && (ReadSystems in g.scopes ==> SystemsInside(f.systems, mine) == SystemsInside(h.systems, yours))
    && (ReadInventory in g.scopes ==> ItemsInside(f.inventory, mine) == ItemsInside(h.inventory, yours))
    && Warnings(ItemsInside(f.inventory, mine)) == Warnings(ItemsInside(h.inventory, yours))
  }

  /** Everything but the residency is disclosed. */
  predicate PoliciesAgree(p: Policies, q: Policies) {
    p.quietStart == q.quietStart && p.quietEnd == q.quietEnd && p.timezone == q.timezone && p.teleop == q.teleop
  }

  predicate LayoutAgrees(f: Housefile, h: Housefile, granted: set<string>) {
    |f.zones| == |h.zones| && forall i :: 0 <= i < |f.zones| ==> ZonesAlike(f.zones[i], h.zones[i], granted)
  }

  /** The safety flags of the items that have any. */
  function Warnings(items: seq<ItemView>): seq<SafetyView> {
    if items == [] then []
    else (if SafetyFlags(items[0].flags) != [] then [SafetyView(items[0].zone, SafetyFlags(items[0].flags))] else [])
         + Warnings(items[1..])
  }

  lemma {:induction false} FirstZoneAlike(a: seq<Zone>, b: seq<Zone>, granted: set<string>, id: string)
    requires |a| == |b| && forall i :: 0 <= i < |a| ==> ZonesAlike(a[i], b[i], granted)
    ensures FirstZone(a, id).Some? <==> FirstZone(b, id).Some?
    ensures FirstZone(a, id).Some? ==>
              (FirstZone(a, id).value.access == NoGo <==> FirstZone(b, id).value.access == NoGo)
  {
    if a != [] && a[0].id != id {
      assert forall i :: 0 <= i < |a| - 1 ==> a[1..][i] == a[i + 1] && b[1..][i] == b[i + 1];
      FirstZoneAlike(a[1..], b[1..], granted, id);
    }
  }

  lemma SameGranted(f: Housefile, h: Housefile, g: Grant)
    requires LayoutAgrees(f, h, Granted(f, g))
    ensures Granted(f, g) == Granted(h, g)
  {
    forall id | id in g.zones ensures Grantable(f, id) <==> Grantable(h, id) {
      FirstZoneAlike(f.zones, h.zones, Granted(f, g), id);
    }
  }

  lemma FactsCons<T, U>(items: seq<T>, fact: T -> U)
    requires items != []
    ensures Facts(items, fact)[1..] == Facts(items[1..], fact) && Facts(items, fact)[0] == fact(items[0])
  {
  }

  lemma {:induction false} QuirkViewsAre(quirks: seq<Quirk>, granted: set<string>)
    ensures QuirkViews(quirks, granted) == QuirksInside(quirks, granted)
  {
    if quirks != [] {
      FactsCons(quirks, QuirkFact);
      QuirkViewsAre(quirks[1..], granted);
    }
  }

  lemma {:induction false} SystemViewsAre(systems: seq<SystemItem>, granted: set<string>)
    ensures SystemViews(systems, granted) == SystemsInside(systems, granted)
  {
    if systems != [] {
      FactsCons(systems, SystemFact);
      SystemViewsAre(systems[1..], granted);
    }
  }

  lemma {:induction false} ItemViewsAre(items: seq<InventoryItem>, granted: set<string>)
    ensures ItemViews(items, granted) == ItemsInside(items, granted)
  {
    if items != [] {
      FactsCons(items, ItemFact);
      ItemViewsAre(items[1..], granted);
    }
  }

  /** The sections of the view are the facts about granted zones, and no more. */
  lemma SectionsAre(file: Housefile, granted: set<string>)
    ensures QuirkViews(file.quirks, granted) == QuirksInside(file.quirks, granted)
    ensures SystemViews(file.systems, granted) == SystemsInside(file.systems, granted)
    ensures ItemViews(file.inventory, granted) == ItemsInside(file.inventory, granted)
    ensures SafetyViews(file.inventory, granted) == Warnings(ItemsInside(file.inventory, granted))
  {
    QuirkViewsAre(file.quirks, granted);
    SystemViewsAre(file.systems, granted);
    ItemViewsAre(file.inventory, granted);
    SafetyFromItems(file.inventory, granted);
  }

  /** What a zone tells a layout reader: no-go zones where they are, granted zones all
      there is to them, and other zones that they exist. */
  predicate ZoneTold(z: Zone, granted: set<string>, v: ZoneView) {
    && v.id == z.id
    && (v.NoGoZone? <==> z.access == NoGo) && (v.ShownZone? <==> z.access != NoGo && z.id in granted)
    && (v.NoGoZone? ==> v.boundary == z.boundary)
    && (v.ShownZone? ==>
          v.name == z.name && v.access == z.access && v.boundary == z.boundary && v.note == z.note && v.outdoor == z.outdoor)
  }

  /** Each section is there exactly when its scope is held, and then it tells the truth
      about granted zones, and no more. */
  lemma SectionsByScope(file: Housefile, g: Grant)
    requires g.status == Active
    ensures var view, granted := ScopedView(file, g), Granted(file, g);
            && view.View? && view.schema == file.schema
            && view.header.id == g.id && view.header.agent == g.name
            && view.header.scopes == g.scopes && view.header.window == g.window
            && view.policies.quietStart == file.policies.quietStart && view.policies.quietEnd == file.policies.quietEnd
            && view.policies.timezone == file.policies.timezone && view.policies.teleop == file.policies.teleop
            && (view.zones.Some? <==> ReadLayout in g.scopes) && (view.quirks.Some? <==> ReadLayout in g.scopes)
            && (view.systems.Some? <==> ReadSystems in g.scopes)
            && (view.inventory.Some? <==> ReadInventory in g.scopes)
            && (view.zones.Some? ==>
                  |view.zones.value| == |file.zones| &&
                  forall i :: 0 <= i < |file.zones| ==> ZoneTold(file.zones[i], granted, view.zones.value[i]))
            && (view.quirks.Some? ==> view.quirks.value == QuirksInside(file.quirks, granted))
            && (view.systems.Some? ==> view.systems.value == SystemsInside(file.systems, granted))
            && (view.inventory.Some? ==> view.inventory.value == ItemsInside(file.inventory, granted))
            && view.safety == Warnings(ItemsInside(file.inventory, granted))
  {
    SectionsAre(file, Granted(file, g));
  }

  /** A grant that is not active is told its status. */
  lemma InactiveSection(file: Housefile, g: Grant)
    ensures ScopedView(file, g).InactiveView? <==> g.status != Active
    ensures var view := ScopedView(file, g);
            view.InactiveView? ==> view.schema == file.schema && view.grant == g.id && view.status == g.status
  {
  }

  /** Noninterference, in both directions and for every grant: two housefiles look the same
      through it exactly when they agree on what its scopes and zones let it learn. */
  lemma ViewDetermines(f: Housefile, h: Housefile, g: Grant)
    ensures ScopedView(f, g) == ScopedView(h, g) <==> Agree(f, h, g)
  {
    InactiveSection(f, g);
    InactiveSection(h, g);
    if g.status == Active {
      SectionsByScope(f, g);
      SectionsByScope(h, g);
      if ReadLayout in g.scopes { LayoutDetermines(f, h, g); }
    }
  }

  /** From its zones alone a layout reader recovers which zones are granted, and everything
      two agreeing housefiles share about zones. */
  lemma LayoutDetermines(f: Housefile, h: Housefile, g: Grant)
    ensures ZoneViews(f.zones, Granted(f, g)) == ZoneViews(h.zones, Granted(h, g)) <==> LayoutAgrees(f, h, Granted(f, g))
    ensures LayoutAgrees(f, h, Granted(f, g)) ==> Granted(f, g) == Granted(h, g)
  {
    var a, b := ZoneViews(f.zones, Granted(f, g)), ZoneViews(h.zones, Granted(h, g));
    if LayoutAgrees(f, h, Granted(f, g)) {
      SameGranted(f, h, g);
    } else if a == b {
      forall i | 0 <= i < |f.zones| ensures ZonesAlike(f.zones[i], h.zones[i], Granted(f, g)) {
        assert a[i] == b[i];
      }
    }
  }

  /** Housefiles that agree on what the grant may learn look the same through it. */
  lemma Noninterference(f: Housefile, h: Housefile, g: Grant)
    requires Agree(f, h, g)
    ensures ScopedView(f, g) == ScopedView(h, g)
  {
    ViewDetermines(f, h, g);
  }

  /** And the view hides nothing it owes: from it alone a layout reader recovers which
      zones are granted, and everything two agreeing housefiles share about zones. */
  lemma ViewReveals(f: Housefile, h: Housefile, g: Grant)
    requires g.status == Active && ReadLayout in g.scopes && ScopedView(f, g) == ScopedView(h, g)
    ensures Granted(f, g) == Granted(h, g)
    ensures |f.zones| == |h.zones|
    ensures forall i :: 0 <= i < |f.zones| ==> ZonesAlike(f.zones[i], h.zones[i], Granted(f, g))
  {
    ViewDetermines(f, h, g);
    LayoutDetermines(f, h, g);
  }

  lemma {:induction false} SafetyFromItems(items: seq<InventoryItem>, granted: set<string>)
    ensures SafetyViews(items, granted) == Warnings(ItemViews(items, granted))
  {
    if items != [] {
      SafetyFromItems(items[1..], granted);
      var rest := ItemViews(items[1..], granted);
      if items[0].zone in granted {
        var first := ItemView(items[0].name, items[0].zone, items[0].flags, items[0].note);
        assert ItemViews(items, granted) == [first] + rest;
        assert ([first] + rest)[1..] == rest;
      } else {
        assert ItemViews(items, granted) == rest;
      }
    }
  }

  // ---------------------------------------------------------------- safety is never withheld

  predicate Warns(safety: seq<SafetyView>, zone: string, flag: Flag) {
    exists s :: s in safety && s.zone == zone && flag in s.flags
  }

  predicate Carries(items: seq<InventoryItem>, zone: string, flag: Flag) {
    exists i :: i in items && i.zone == zone && flag in i.flags
  }

  lemma WarnsCons(first: seq<SafetyView>, rest: seq<SafetyView>, zone: string, flag: Flag)
    ensures Warns(first + rest, zone, flag) <==> Warns(first, zone, flag) || Warns(rest, zone, flag)
  {
  }

  lemma {:induction false} SafetyExactly(items: seq<InventoryItem>, granted: set<string>, zone: string, flag: Flag)
    ensures Warns(SafetyViews(items, granted), zone, flag) <==>
            zone in granted && IsSafety(flag) && Carries(items, zone, flag)
  {
    if items != [] {
      var i, rest := items[0], SafetyViews(items[1..], granted);
      var first := if i.zone in granted && SafetyFlags(i.flags) != [] then [SafetyView(i.zone, SafetyFlags(i.flags))] else [];
      SafetyExactly(items[1..], granted, zone, flag);
      assert SafetyViews(items, granted) == first + rest;
      WarnsCons(first, rest, zone, flag);
      assert Carries(items, zone, flag) <==> (i.zone == zone && flag in i.flags) || Carries(items[1..], zone, flag) by {
        assert items == [i] + items[1..];
      }
      assert Warns(first, zone, flag) <==> i.zone == zone && zone in granted && IsSafety(flag) && flag in i.flags by {
        if i.zone == zone && zone in granted && IsSafety(flag) && flag in i.flags {
          assert flag in SafetyFlags(i.flags);
          assert first[0] in first && first[0].zone == zone && flag in first[0].flags;
        }
      }
    }
  }

  /** Whatever its scopes, an active grant is warned of exactly the safety flags of the
      items in its zones. */
  lemma SafetyDisclosed(file: Housefile, g: Grant, zone: string, flag: Flag)
    requires g.status == Active
    ensures Warns(ScopedView(file, g).safety, zone, flag) <==>
            zone in Granted(file, g) && IsSafety(flag) && Carries(file.inventory, zone, flag)
  {
    SafetyExactly(file.inventory, Granted(file, g), zone, flag);
  }

  // ---------------------------------------------------------------- the command gate

  datatype Verb = Navigate | Manipulate

  function RequiredScope(v: Verb): Scope {
    if v.Navigate? then CmdNavigate else CmdManipulate
  }

  /** The policy boundary of `_evaluate_command`. */
  predicate GateAdmits(file: Housefile, g: Grant, verb: Verb, zone: string) {
    var z := FirstZone(file.zones, zone);
    z.Some? && z.value.id in g.zones && z.value.access != NoGo && RequiredScope(verb) in g.scopes
  }

  predicate Shows(zones: seq<ZoneView>, id: string) {
    exists i :: 0 <= i < |zones| && zones[i].ShownZone? && zones[i].id == id
  }

  lemma {:induction false} FirstZoneIndex(zones: seq<Zone>, id: string) returns (i: nat)
    requires FirstZone(zones, id).Some?
    ensures i < |zones| && zones[i] == FirstZone(zones, id).value
  {
    if zones[0].id == id {
      i := 0;
    } else {
      var k := FirstZoneIndex(zones[1..], id);
      i := k + 1;
    }
  }

  lemma ShownIsGranted(file: Housefile, g: Grant, id: string)
    ensures Shows(ZoneViews(file.zones, Granted(file, g)), id) <==> id in Granted(file, g)
  {
    if id in Granted(file, g) {
      var i := FirstZoneIndex(file.zones, id);
      assert ZoneViews(file.zones, Granted(file, g))[i].ShownZone?;
    }
  }

  /** The command gate admits exactly what the view tells its holder it may do: a listed
      capability, in a granted zone, which is a zone the view shows to a layout reader. */
  lemma GateMatchesView(file: Housefile, g: Grant, verb: Verb, zone: string)
    requires g.status == Active
    ensures var view := ScopedView(file, g);
            && (GateAdmits(file, g, verb, zone) <==>
                  RequiredScope(verb) in view.capabilities && zone in Granted(file, g))
            && (view.zones.Some? ==> (Shows(view.zones.value, zone) <==> zone in Granted(file, g)))
  {
    ShownIsGranted(file, g, zone);
  }
}
