/** The API-key panel: the add form's guard, the service icon and the location badge. */
module ApiKeysPanel {
  import opened Wrappers
  import KeysRoute

  /** The add form's fields. */
  datatype NewKey = NewKey(name: string, service: string, value: string)

  /** `addKey`'s early return: it does nothing unless all three fields are non-empty. */
  predicate AddProceeds(k: NewKey) {
    !(k.name == "" || k.service == "" || k.value == "")
  }

  /** The Save button's `disabled` expression. */
  predicate SaveDisabled(k: NewKey) {
    k.name == "" || k.service == "" || k.value == ""
  }

  /** The button is enabled exactly when pressing it would send the form, and whatever the
      form sends passes the route's own field check. */
  lemma SaveMatchesGuard(k: NewKey)
    ensures !SaveDisabled(k) <==> AddProceeds(k)
    ensures AddProceeds(k) <==>
      KeysRoute.Present(Some(k.name)) && KeysRoute.Present(Some(k.service))
      && KeysRoute.Present(Some(k.value))
  {
  }

  /** The icon fragments of a key row, in order: one per listed service (rendered only when
      the service matches) and the key icon (rendered only when none does). */
  const Services := ["posthog", "openai", "anthropic", "sendgrid", "supabase", "meta", "google"]

  const ServiceIcons := ["\U{1F4CA}", "\U{1F916}", "\U{1F9E0}", "\U{1F4E7}",
                         "\U{1F5C4}\U{FE0F}", "\U{1F4D8}", "\U{1F50D}"]

  const KeyIcon := "\U{1F511}"

  function Fragments(service: string): (r: seq<Option<string>>)
    ensures |r| == 8
    ensures forall i :: 0 <= i < 7 ==> (r[i].Some? <==> service == Services[i])
    ensures forall i :: 0 <= i < 7 ==> r[i].Some? ==> r[i].value == ServiceIcons[i]
    ensures r[7].Some? <==> service !in Services
    ensures r[7].Some? ==> r[7].value == KeyIcon
  {
    seq(7, i requires 0 <= i < 7 => if service == Services[i] then Some(ServiceIcons[i]) else None)
    + [if service !in Services then Some(KeyIcon) else None]
  }

  /** The icon a row shows. */
  function ServiceIcon(service: string): (r: string)
    ensures r == KeyIcon <==> service !in Services
  {
    if service == "posthog" then "\U{1F4CA}"
    else if service == "openai" then "\U{1F916}"
    else if service == "anthropic" then "\U{1F9E0}"
    else if service == "sendgrid" then "\U{1F4E7}"
    else if service == "supabase" then "\U{1F5C4}\U{FE0F}"
    else if service == "meta" then "\U{1F4D8}"
    else if service == "google" then "\U{1F50D}"
    else KeyIcon
  }

  /** Fragment `i` renders `icon` and no other fragment renders. */
  predicate OnlyFragment(f: seq<Option<string>>, i: int, icon: string) {
    0 <= i < |f| && f[i] == Some(icon) && forall j :: 0 <= j < |f| && j != i ==> f[j].None?
  }

  /** Exactly one fragment renders for any service, and it is the service's icon. */
  lemma ExactlyOneIcon(service: string)
    ensures exists i :: OnlyFragment(Fragments(service), i, ServiceIcon(service))
  {
    var f := Fragments(service);
    var i: nat := 0;
    while i < 7 && service != Services[i]
      invariant i <= 7
      invariant forall j :: 0 <= j < i ==> service != Services[j]
    {
      i := i + 1;
    }
    assert OnlyFragment(f, i, ServiceIcon(service));
  }

  /** The listed services have seven different icons, none of them the key icon. */
  lemma IconsDistinct()
    ensures forall i, j :: 0 <= i < j < 7 ==> ServiceIcon(Services[i]) != ServiceIcon(Services[j])
    ensures forall i :: 0 <= i < 7 ==> ServiceIcon(Services[i]) != KeyIcon
  {
  }

  /** The dropdown's services without an icon of their own show the key icon. */
  lemma UnlistedServices()
    ensures ServiceIcon("resend") == KeyIcon && ServiceIcon("other") == KeyIcon
    ensures ServiceIcon("") == KeyIcon
  {
  }

  /** The location badge's classes: green for the keychain, blue for the environment, and
      gray for anything else. */
  function Badge(location: string): (r: string)
    ensures location == "keychain" ==> r == "bg-green-500/20 text-green-400"
    ensures location == "env" ==> r == "bg-blue-500/20 text-blue-400"
    ensures location != "keychain" && location != "env" ==> r == "bg-gray-500/20 text-gray-400"
  {
    if location == "keychain" then "bg-green-500/20 text-green-400"
    else if location == "env" then "bg-blue-500/20 text-blue-400"
    else "bg-gray-500/20 text-gray-400"
  }
}
