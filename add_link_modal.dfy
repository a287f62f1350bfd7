/** The non-rendering logic of components/AddLinkModal.tsx: the form state
    (text fields, proxy settings, icon), how it is filled when the dialog
    opens, the per-field handlers, the proxy presets and the record that
    `handleSubmit` hands to `onSave`. */
module AddLinkModal {
  import opened Types

  /** `defaultProxyConfig` */
  const DefaultProxyConfig: ProxyConfig := ProxyConfig(
    "http://localhost:8000", false,
    "/etc/ssl/certs/your_domain.crt", "/etc/ssl/private/your_domain.key", false)

  /** `formData`: the four text inputs. */
  datatype FormData = FormData(title: string, url: string, description: string, category: string)

  const EmptyForm: FormData := FormData("", "", "", "")

  /** The `name` attribute of a text input handled by `handleChange`. */
  datatype FormField = Title | Url | Description | Category

  /** The `name` attribute of a text input handled by `handleProxyChange`. */
  datatype ProxyField = Target | SslCertPath | SslKeyPath

  /** The two buttons that call `applyPreset`. */
  datatype Preset = React | NodeJs

  /** The record `handleSubmit` passes to `onSave`
      (`Omit<LinkItem, 'id' | 'enabled'>`); `proxyConfig` is `None` when
      the key is absent. */
  datatype LinkDraft = LinkDraft(
    title: string,
    url: string,
    description: string,
    category: string,
    icon: Option<string>,
    itemType: ItemType,
    proxyConfig: Option<ProxyConfig>)

  /** `link?.type || creationType`: a type is never an empty string, so an
      edited entry always decides. */
  function ItemTypeOf(link: Option<LinkItem>, creationType: ItemType): (t: ItemType)
    ensures link.Some? ==> t == link.value.itemType
    ensures link.None? ==> t == creationType
  {
    match link
    case Some(l) => l.itemType
    case None => creationType
  }

  function FieldValue(f: FormData, field: FormField): string
  {
    match field
    case Title => f.title
    case Url => f.url
    case Description => f.description
    case Category => f.category
  }

  /** `{ ...prev, [name]: value }` on `formData`. */
  function WithField(f: FormData, field: FormField, value: string): FormData
  {
    match field
    case Title => f.(title := value)
    case Url => f.(url := value)
    case Description => f.(description := value)
    case Category => f.(category := value)
  }

  /** A field change sets the named field and no other. */
  lemma WithFieldReadBack(f: FormData, field: FormField, value: string, other: FormField)
    ensures FieldValue(WithField(f, field, value), other) ==
              if other == field then value else FieldValue(f, other)
  {
  }

  function ProxyFieldValue(p: ProxyConfig, field: ProxyField): string
  {
    match field
    case Target => p.target
    case SslCertPath => p.sslCertPath
    case SslKeyPath => p.sslKeyPath
  }

  /** `{ ...prev, [name]: value }` on `proxyData`. */
  function WithProxyField(p: ProxyConfig, field: ProxyField, value: string): ProxyConfig
  {
    match field
    case Target => p.(target := value)
    case SslCertPath => p.(sslCertPath := value)
    case SslKeyPath => p.(sslKeyPath := value)
  }

  /** A proxy field change sets the named field, leaves the other text
      fields and both switches alone. */
  lemma WithProxyFieldReadBack(p: ProxyConfig, field: ProxyField, value: string, other: ProxyField)
    ensures var q := WithProxyField(p, field, value);
      && ProxyFieldValue(q, other) == (if other == field then value else ProxyFieldValue(p, other))
      && q.enableSsl == p.enableSsl && q.enableWebSockets == p.enableWebSockets
  {
  }

  /** `applyPreset` */
  function WithPreset(p: ProxyConfig, preset: Preset): (q: ProxyConfig)
    ensures q.enableSsl == p.enableSsl && q.sslCertPath == p.sslCertPath && q.sslKeyPath == p.sslKeyPath
    ensures q.enableWebSockets
    ensures q.target == (if preset == React then "http://localhost:3000" else "http://localhost:8080")
  {
    match preset
    case React => p.(target := "http://localhost:3000", enableWebSockets := true)
    case NodeJs => p.(target := "http://localhost:8080", enableWebSockets := true)
  }

  /** The dialog's state. `link` and `creationType` are the props it was
      last opened with. */
  class LinkForm {
    var link: Option<LinkItem>
    var creationType: ItemType
    var formData: FormData
    var proxyData: ProxyConfig
    var icon: Option<string>

    /** The state right after the open effect has run for `link`. */
    ghost predicate OpenedFor(l: Option<LinkItem>)
      reads this
    {
      match l
      case Some(e) =>
        && formData == FormData(e.title, e.url, e.description,
                                if e.category.Some? then e.category.value else "")
        && icon == e.icon
        && proxyData == (if e.proxyConfig.Some? then e.proxyConfig.value else DefaultProxyConfig)
      case None =>
        formData == EmptyForm && icon == None && proxyData == DefaultProxyConfig
    }

    /** Mounting with the `useState` defaults, then running the open effect. */
    constructor (link: Option<LinkItem>, creationType: ItemType)
      ensures this.link == link && this.creationType == creationType
      ensures OpenedFor(link)
    {
      this.link := link;
      this.creationType := creationType;
      formData := EmptyForm;
      proxyData := DefaultProxyConfig;
      icon := None;
      new;
      Reset();
    }

    /** The effect on `[link, isOpen]`, run when the dialog is opened with
        new props. */
    method Open(link: Option<LinkItem>, creationType: ItemType)
      modifies this
      ensures this.link == link && this.creationType == creationType
      ensures OpenedFor(link)
    {
      this.link := link;
      this.creationType := creationType;
      Reset();
    }

    /** The body of the open effect: copy the edited entry into the form,
        or clear the form for a new one. */
    method Reset()
      modifies this`formData, this`icon, this`proxyData
      ensures OpenedFor(link)
    {
      match link
      case Some(e) =>
        formData := FormData(e.title, e.url, e.description,
                             if e.category.Some? then e.category.value else "");
        icon := e.icon;
        if e.proxyConfig.Some? {
          proxyData := e.proxyConfig.value;
        } else {
          proxyData := DefaultProxyConfig;
        }
      case None =>
        formData := EmptyForm;
        icon := None;
        proxyData := DefaultProxyConfig;
    }

    /** `itemType` */
    function ItemType(): ItemType
      reads this
    {
      ItemTypeOf(link, creationType)
    }

    /** `handleChange` */
    method HandleChange(field: FormField, value: string)
      modifies this`formData
      ensures formData == WithField(old(formData), field, value)
    {
      formData := WithField(formData, field, value);
    }

    /** `handleProxyChange` */
    method HandleProxyChange(field: ProxyField, value: string)
      modifies this`proxyData
      ensures proxyData == WithProxyField(old(proxyData), field, value)
    {
      proxyData := WithProxyField(proxyData, field, value);
    }

    /** The SSL switch. */
    method SetSsl(on: bool)
      modifies this`proxyData
      ensures proxyData == old(proxyData).(enableSsl := on)
    {
      proxyData := proxyData.(enableSsl := on);
    }

    /** The WebSocket switch. */
    method SetWebSockets(on: bool)
      modifies this`proxyData
      ensures proxyData == old(proxyData).(enableWebSockets := on)
    {
      proxyData := proxyData.(enableWebSockets := on);
    }

    /** `applyPreset` */
    method ApplyPreset(preset: Preset)
      modifies this`proxyData
      ensures proxyData == WithPreset(old(proxyData), preset)
    {
      proxyData := WithPreset(proxyData, preset);
    }

    /** `handleSubmit`: the form fields, the icon and the item type; proxy
        settings only for a service. */
    method Submit() returns (d: LinkDraft)
      ensures d.title == formData.title && d.url == formData.url
      ensures d.description == formData.description && d.category == formData.category
      ensures d.icon == icon && d.itemType == ItemType()
      ensures d.proxyConfig.Some? <==> ItemType() == Service
      ensures d.proxyConfig.Some? ==> d.proxyConfig.value == proxyData
    {
      var t := ItemType();
      d := LinkDraft(formData.title, formData.url, formData.description, formData.category,
                     icon, t, if t == Service then Some(proxyData) else None);
    }
  }

  /** The record submitted right after opening, with no edits in between. */
  function DraftAfterOpen(link: Option<LinkItem>, creationType: ItemType): (d: LinkDraft)
  {
    var t := ItemTypeOf(link, creationType);
    match link
    case Some(e) =>
      LinkDraft(e.title, e.url, e.description, if e.category.Some? then e.category.value else "",
                e.icon, t, if t == Service then Some(if e.proxyConfig.Some? then e.proxyConfig.value
                                                     else DefaultProxyConfig) else None)
    case None =>
      LinkDraft("", "", "", "", None, t, if t == Service then Some(DefaultProxyConfig) else None)
  }

  /** Submitting straight after opening gives `DraftAfterOpen`. */
  method OpenThenSubmit(link: Option<LinkItem>, creationType: ItemType) returns (d: LinkDraft)
    ensures d == DraftAfterOpen(link, creationType)
  {
    var form := new LinkForm(link, creationType);
    d := form.Submit();
  }

  /** A fresh form for a new entry submits empty text, no icon, and the
      default proxy settings exactly when a service is being created. */
  lemma NewDraftIsBlank(creationType: ItemType)
    ensures var d := DraftAfterOpen(None, creationType);
      && d.title == "" && d.url == "" && d.description == "" && d.category == ""
      && d.icon == None && d.itemType == creationType
      && (d.proxyConfig.Some? <==> creationType == Service)
      && (d.proxyConfig.Some? ==>
            (d.proxyConfig.value.target == "http://localhost:8000"
             && !d.proxyConfig.value.enableSsl && !d.proxyConfig.value.enableWebSockets))
  {
  }
}
