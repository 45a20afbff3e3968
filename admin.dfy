/** The CRUD controller of the admin console (src/pages/AdminDashboard.jsx):
    the four list loaders, the modal and its form, the entity-kind dispatch
    of save and delete, and the table's cell fallback. */
module AdminDashboard {
  import opened Js
  import opened Browser

  // ---------------------------------------------------------------------
  // Entity kinds and the backend's endpoints for them
  // ---------------------------------------------------------------------

  /** The collections the console manages, one state cell each. */
  datatype Collection = Users | Support | Resources | FinancialAid

  /** The backend's collection path of each kind (list and create). */
  function CollectionPath(c: Collection): string {
    match c
    case Users => "/auth/"
    case Support => "/admin/support"
    case Resources => "/resources/"
    case FinancialAid => "/financial-aid/"
  }

  /** The backend's detail path of a kind, up to the record's id. */
  function DetailPrefix(c: Collection): string {
    match c
    case Users => "/auth/"
    case Support => "/admin/support/"
    case Resources => "/resources/"
    case FinancialAid => "/financial-aid/"
  }

  /** The backend's detail path of one record (update and delete). */
  function DetailPath(c: Collection, id: string): string {
    DetailPrefix(c) + id
  }

  function CollectionUrl(c: Collection): string {
    Origin + CollectionPath(c)
  }

  function DetailUrl(c: Collection, id: string): string {
    Origin + DetailPath(c, id)
  }

  /** Distinct records have distinct detail URLs: the id can be read back
      from the URL, and no two kinds share a detail URL. */
  lemma DetailUrlInjective(c: Collection, d: Collection, id: string, id': string)
    requires DetailUrl(c, id) == DetailUrl(d, id')
    ensures c == d && id == id'
  {
    var u := DetailUrl(c, id);
    var k := |Origin|;
    assert u == Origin + DetailPrefix(c) + id;
    assert u == Origin + DetailPrefix(d) + id';
    assert u[k + 1] == DetailPrefix(c)[1] == DetailPrefix(d)[1];
    assert u[k + 2] == DetailPrefix(c)[2] == DetailPrefix(d)[2];
    assert c == d;
    assert u[k + |DetailPrefix(c)|..] == id;
    assert u[k + |DetailPrefix(d)|..] == id';
  }

  /** The tag `renderTable` is given for each kind, which its Add, Edit and
      Delete buttons pass on to `openModal` and `handleDelete`. */
  function TableTag(c: Collection): (t: string)
    ensures c == Support || c == FinancialAid ==> SectionKey(c) == t
    ensures c == Users || c == Resources ==> SectionKey(c) == t + "s"
  {
    match c
    case Users => "user"
    case Support => "support"
    case Resources => "resource"
    case FinancialAid => "financialAid"
  }

  /** The sidebar's section keys, as `renderContent` switches on them. */
  function SectionKey(c: Collection): string {
    match c
    case Users => "users"
    case Support => "support"
    case Resources => "resources"
    case FinancialAid => "financialAid"
  }

  /** How `handleSave` reads `modalType`: the table tags. */
  function KindOfTag(t: string): (k: Option<Collection>)
    ensures forall c :: k == Some(c) <==> t == TableTag(c)
  {
    if t == "user" then Some(Users)
    else if t == "support" then Some(Support)
    else if t == "resource" then Some(Resources)
    else if t == "financialAid" then Some(FinancialAid)
    else None
  }

  /** The table tags and the sidebar keys agree for support and financial
      aid; for users and resources the sidebar key is the plural of the tag. */
  lemma TagsAndSectionKeys(c: Collection)
    ensures TableTag(c) == SectionKey(c) <==> c == Support || c == FinancialAid
    ensures KindOfDeleteTag(TableTag(c)).Some? <==> c == Support || c == FinancialAid
  {
  }

  /** How `handleDelete` reads its tag: the sidebar keys, not the table tags. */
  function KindOfDeleteTag(t: string): (k: Option<Collection>)
    ensures forall c :: k == Some(c) <==> t == SectionKey(c)
  {
    if t == "users" then Some(Users)
    else if t == "support" then Some(Support)
    else if t == "resources" then Some(Resources)
    else if t == "financialAid" then Some(FinancialAid)
    else None
  }

  /** `${editingItem.id}` */
  function IdText(item: Record): string {
    ToText(Field(item, "id"))
  }

  // ---------------------------------------------------------------------
  // Lists
  // ---------------------------------------------------------------------

  /** `data || []`: a truthy response is kept as it is, an array or not. */
  function StoredList(data: Value): (stored: Value)
    ensures Truthy(data) ==> stored == data
    ensures !Truthy(data) ==> stored == Arr([])
    ensures Truthy(stored)
  {
    Or(data, Arr([]))
  }

  /** A list cell after one load: a thrown fetch or parse leaves it. */
  function LoadStep(prev: Value, reply: Response): (next: Value)
    ensures reply.Threw? ==> next == prev
    ensures reply.Answered? ==> next == StoredList(reply.body)
    ensures Truthy(prev) ==> Truthy(next)
  {
    match reply
    case Threw => prev
    case Answered(_, data) => StoredList(data)
  }

  function FetchFailure(c: Collection): string {
    match c
    case Users => "Failed to fetch users"
    case Support => "Failed to fetch support entries"
    case Resources => "Failed to fetch resources"
    case FinancialAid => "Failed to fetch financial aid resources"
  }

  // ---------------------------------------------------------------------
  // The table
  // ---------------------------------------------------------------------

  /** `item[col] || "-"`; `None` when the row is `null` or `undefined` and
      reading from it throws. */
  function Cell(item: Value, col: string): (shown: Option<Value>)
    ensures shown.None? <==> item.Null? || item.Undefined?
    ensures shown.Some? ==> Truthy(shown.value)
    ensures item.Obj? ==>
              shown == Some(if Truthy(Field(item.fields, col)) then Field(item.fields, col) else Str("-"))
    ensures !item.Obj? && shown.Some? ==> shown == Some(Str("-"))
  {
    match Prop(item, col)
    case None => None
    case Some(v) => Some(Or(v, Str("-")))
  }

  predicate Renderable(item: Value) {
    !item.Null? && !item.Undefined?
  }

  /** The cells `renderTable` shows for a list, row by row: `None` when
      rendering throws, because the list is not an array (`data.map` is not
      a function) or one of its rows is `null` or `undefined`. */
  function Table(data: Value, columns: seq<string>): (rows: Option<seq<seq<Value>>>)
    ensures rows.Some? <==> data.Arr? && forall i :: 0 <= i < |data.items| ==> Renderable(data.items[i])
    ensures rows.Some? ==> |rows.value| == |data.items|
    ensures rows.Some? ==>
              forall i :: 0 <= i < |rows.value| ==>
                && |rows.value[i]| == |columns|
                && forall j :: 0 <= j < |columns| ==> Some(rows.value[i][j]) == Cell(data.items[i], columns[j])
  {
    if data.Arr? && forall i :: 0 <= i < |data.items| ==> Renderable(data.items[i]) then
      Some(seq(|data.items|, i requires 0 <= i < |data.items| =>
        seq(|columns|, j requires 0 <= j < |columns| => Cell(data.items[i], columns[j]).value)))
    else None
  }

  // ---------------------------------------------------------------------
  // The modal
  // ---------------------------------------------------------------------

  /** The modal's four state cells. */
  datatype ModalState = ModalState(open: bool, kind: string, editing: Option<Record>, form: Record)

  /** A closed modal holds no item and no edits. */
  predicate Coherent(m: ModalState) {
    !m.open ==> m.editing.None? && m.form == map[]
  }

  /** `openModal(type, item)`: the form starts as the item, or empty. */
  function Opened(kind: string, item: Option<Record>): (m: ModalState)
    ensures m.open && m.kind == kind && m.editing == item && Coherent(m)
    ensures m.form == (if item.Some? then item.value else map[])
  {
    ModalState(true, kind, item, if item.Some? then item.value else map[])
  }

  /** `closeModal()`: the kind is left as it was. */
  function Closed(m: ModalState): (m': ModalState)
    ensures !m'.open && m'.editing.None? && m'.form == map[] && m'.kind == m.kind
    ensures Coherent(m')
  {
    m.(open := false, editing := None, form := map[])
  }

  /** `handleChange`: one field of the form takes the typed value. */
  function Changed(m: ModalState, name: string, value: Value): (m': ModalState)
    ensures m'.form.Keys == m.form.Keys + {name} && m'.form[name] == value
    ensures forall k :: k in m.form && k != name ==> m'.form[k] == m.form[k]
    ensures m'.open == m.open && m'.kind == m.kind && m'.editing == m.editing
  {
    m.(form := m.form[name := value])
  }

  /** A change while the modal is open keeps the modal coherent. */
  lemma ChangedCoherent(m: ModalState, name: string, value: Value)
    requires m.open
    ensures Coherent(Changed(m, name, value))
  {
  }

  /** Closing forgets the item and every edit, whatever came before. */
  lemma CloseForgetsEdits(kind: string, item: Option<Record>, name: string, value: Value)
    ensures Closed(Changed(Opened(kind, item), name, value)) == Closed(Opened(kind, None))
  {
  }

  // ---------------------------------------------------------------------
  // Save and delete dispatch
  // ---------------------------------------------------------------------

  /** The request `handleSave` sends: PUT exactly when an item is being
      edited, with the form as its body; the URL comes from the if-chain on
      the modal's kind, and stays "" for a kind the chain does not know. */
  function SaveRequest(kind: string, editing: Option<Record>, form: Record): (r: Request)
    ensures r.verb == "PUT" <==> editing.Some?
    ensures r.verb == "POST" <==> editing.None?
    ensures r.body == Some(form)
    ensures KindOfTag(kind).None? <==> r.url == ""
  {
    var verb := if editing.Some? then "PUT" else "POST";
    var url :=
      if kind == "user" then
        (if editing.Some? then Origin + "//auth/" + IdText(editing.value) else Origin + "/auth/")
      else if kind == "support" then
        (if editing.Some? then Origin + "/admin/support/" + IdText(editing.value) else Origin + "/admin/support")
      else if kind == "resource" then
        (if editing.Some? then Origin + "/resources/" + IdText(editing.value) else Origin + "/resources/")
      else if kind == "financialAid" then
        (if editing.Some? then Origin + "/financial-aid/" + IdText(editing.value) else Origin + "/financial-aid/")
      else "";
    Request(verb, url, Some(form))
  }

  /** Creating posts to the kind's collection URL; editing puts to the
      edited record's detail URL, except for users, whose URL carries an
      extra slash before `auth`. */
  lemma SaveTargetsEndpoint(c: Collection, editing: Option<Record>, form: Record)
    ensures editing.None? ==> SaveRequest(TableTag(c), editing, form).url == CollectionUrl(c)
    ensures editing.Some? && c != Users ==>
              SaveRequest(TableTag(c), editing, form).url == DetailUrl(c, IdText(editing.value))
    ensures editing.Some? && c == Users ==>
              SaveRequest(TableTag(c), editing, form).url == Origin + "/" + DetailPath(Users, IdText(editing.value))
  {
    if editing.None? {
      CreateTargetsCollection(c, form);
    } else if c != Users {
      EditTargetsDetail(c, editing.value, form);
    }
  }

  /** Creating a record of any kind posts to its collection URL. */
  lemma CreateTargetsCollection(c: Collection, form: Record)
    ensures SaveRequest(TableTag(c), None, form).url == CollectionUrl(c)
  {
  }

  /** Editing a record of any kind but users puts to its detail URL. */
  lemma EditTargetsDetail(c: Collection, item: Record, form: Record)
    requires c != Users
    ensures SaveRequest(TableTag(c), Some(item), form).url == DetailUrl(c, IdText(item))
  {
  }

  /** The user edit URL is not the backend's detail URL for that user. */
  lemma UserEditUrlHasDoubleSlash(item: Record, form: Record)
    ensures SaveRequest("user", Some(item), form).url != DetailUrl(Users, IdText(item))
  {
    var k := |Origin|;
    assert SaveRequest("user", Some(item), form).url[k + 1] == '/';
    assert DetailUrl(Users, IdText(item))[k + 1] == 'a';
  }

  /** The corrected save request: every known kind goes to its collection
      URL on create and to the record's detail URL on edit. */
  function SaveRequestFixed(kind: string, editing: Option<Record>, form: Record): (r: Request)
    ensures r.verb == (if editing.Some? then "PUT" else "POST") && r.body == Some(form)
    ensures KindOfTag(kind).None? ==> r.url == ""
    ensures KindOfTag(kind).Some? && editing.None? ==> r.url == CollectionUrl(KindOfTag(kind).value)
    ensures KindOfTag(kind).Some? && editing.Some? ==>
              r.url == DetailUrl(KindOfTag(kind).value, IdText(editing.value))
  {
    var verb := if editing.Some? then "PUT" else "POST";
    var url :=
      match KindOfTag(kind)
      case None => ""
      case Some(c) => if editing.Some? then DetailUrl(c, IdText(editing.value)) else CollectionUrl(c);
    Request(verb, url, Some(form))
  }

  /** The request `handleDelete` sends for a confirmed delete; "" for a tag
      its if-chain does not know. */
  function DeleteRequest(tag: string, id: Value): (r: Request)
    ensures r.verb == "DELETE" && r.body.None?
    ensures KindOfDeleteTag(tag).Some? ==> r.url == DetailUrl(KindOfDeleteTag(tag).value, ToText(id))
    ensures KindOfDeleteTag(tag).None? ==> r.url == ""
  {
    var url :=
      if tag == "users" then Origin + "/auth/" + ToText(id)
      else if tag == "support" then Origin + "/admin/support/" + ToText(id)
      else if tag == "resources" then Origin + "/resources/" + ToText(id)
      else if tag == "financialAid" then Origin + "/financial-aid/" + ToText(id)
      else "";
    Request("DELETE", url, None)
  }

  /** The Delete buttons of the users and resources tables pass a tag the
      delete chain does not know: the DELETE goes to "" and nothing is
      refetched. */
  lemma DeleteMissesUserAndResourceRows(id: Value)
    ensures DeleteRequest(TableTag(Users), id).url == "" && KindOfDeleteTag(TableTag(Users)).None?
    ensures DeleteRequest(TableTag(Resources), id).url == "" && KindOfDeleteTag(TableTag(Resources)).None?
    ensures DeleteRequest(TableTag(Support), id).url == DetailUrl(Support, ToText(id))
    ensures DeleteRequest(TableTag(FinancialAid), id).url == DetailUrl(FinancialAid, ToText(id))
  {
  }

  /** The corrected delete request, dispatching on the table tags. */
  function DeleteRequestFixed(tag: string, id: Value): (r: Request)
    ensures r.verb == "DELETE" && r.body.None?
    ensures KindOfTag(tag).Some? ==> r.url == DetailUrl(KindOfTag(tag).value, ToText(id))
    ensures KindOfTag(tag).None? ==> r.url == ""
  {
    var url :=
      match KindOfTag(tag)
      case None => ""
      case Some(c) => DetailUrl(c, ToText(id));
    Request("DELETE", url, None)
  }

  /** With the corrections, editing a row and deleting it address the same
      record, for every table. */
  lemma FixedEditAndDeleteAgree(c: Collection, item: Record, form: Record)
    ensures SaveRequestFixed(TableTag(c), Some(item), form).url
         == DeleteRequestFixed(TableTag(c), Field(item, "id")).url
         == DetailUrl(c, IdText(item))
  {
  }

  /** The modal after `handleSave` settles: a thrown request leaves it as
      it was; any reply, refused or not, closes it. */
  function AfterSave(m: ModalState, reply: Response): (m': ModalState)
    ensures reply.Threw? ==> m' == m
    ensures reply.Answered? ==> !m'.open && m'.editing.None? && m'.form == map[]
    ensures m'.kind == m.kind
    ensures Coherent(m) ==> Coherent(m')
  {
    if reply.Threw? then m else Closed(m)
  }

  /** A refused save closes the modal and loses the edits. */
  lemma RefusedSaveLosesForm(m: ModalState, body: Value)
    ensures !AfterSave(m, Answered(false, body)).open
    ensures AfterSave(m, Answered(false, body)).form == map[]
    ensures m.form != map[] ==> AfterSave(m, Answered(false, body)).form != m.form
  {
  }

  /** The corrected settle rule: only an OK reply closes the modal. */
  function AfterSaveFixed(m: ModalState, reply: Response): (m': ModalState)
    ensures reply.Answered? && reply.ok ==> m' == Closed(m)
    ensures !(reply.Answered? && reply.ok) ==> m' == m
  {
    match reply
    case Answered(true, _) => Closed(m)
    case _ => m
  }

  /** A bare object stored by the loader makes the table throw. */
  lemma BareObjectBreaksTable(prev: Value, ok: bool, fields: map<string, Value>, columns: seq<string>)
    ensures LoadStep(prev, Answered(ok, Obj(fields))) == Obj(fields)
    ensures Table(LoadStep(prev, Answered(ok, Obj(fields))), columns).None?
  {
  }

  /** The corrected loader result: always an array, a bare value wrapped
      in a one-element list. */
  function StoredListFixed(data: Value): (stored: Value)
    ensures stored.Arr?
    ensures data.Arr? ==> stored == data
    ensures !data.Arr? && Truthy(data) ==> stored.items == [data]
    ensures !Truthy(data) ==> stored.items == []
  {
    if data.Arr? then data else if Truthy(data) then Arr([data]) else Arr([])
  }

  /** With the correction the table renders every response that is not an
      array holding `null` or `undefined`. */
  lemma FixedListAlwaysRenders(data: Value, columns: seq<string>)
    requires data.Arr? ==> forall i :: 0 <= i < |data.items| ==> Renderable(data.items[i])
    ensures Table(StoredListFixed(data), columns).Some?
  {
  }

  // ---------------------------------------------------------------------
  // The page
  // ---------------------------------------------------------------------

  class Page {
    var users: Value
    var supportList: Value
    var resources: Value
    var financialAid: Value
    var modalOpen: bool
    var modalType: string
    var editingItem: Option<Record>
    var formData: Record
    const env: Env

    /** The list state cell of a kind. */
    ghost function List(c: Collection): Value
      reads this`users, this`supportList, this`resources, this`financialAid
    {
      match c
      case Users => users
      case Support => supportList
      case Resources => resources
      case FinancialAid => financialAid
    }

    ghost function Modal(): ModalState
      reads this`modalOpen, this`modalType, this`editingItem, this`formData
    {
      ModalState(modalOpen, modalType, editingItem, formData)
    }

    ghost predicate Valid()
      reads this`modalOpen, this`modalType, this`editingItem, this`formData
    {
      Coherent(Modal())
    }

    constructor (env: Env)
      ensures this.env == env && Valid()
      ensures forall c :: List(c) == Arr([])
      ensures Modal() == ModalState(false, "", None, map[])
    {
      this.env := env;
      users, supportList, resources, financialAid := Arr([]), Arr([]), Arr([]), Arr([]);
      modalOpen, modalType, editingItem, formData := false, "", None, map[];
    }

    /** `fetchUsers`, `fetchSupport`, `fetchResources`, `fetchFinancialAid`:
        the one for collection `c`, with its reply; returns the URL fetched. */
    method FetchList(c: Collection, reply: Response) returns (url: string)
      modifies this`users, this`supportList, this`resources, this`financialAid, env`alerts
      ensures url == CollectionUrl(c)
      ensures forall k :: List(k) == if k == c then LoadStep(old(List(k)), reply) else old(List(k))
      ensures env.alerts == old(env.alerts) + (if reply.Threw? then [FetchFailure(c)] else [])
    {
      url := CollectionUrl(c);
      match reply {
        case Threw =>
          env.Alert(FetchFailure(c));
        case Answered(_, data) =>
          var stored := if Truthy(data) then data else Arr([]);
          match c {
            case Users => users := stored;
            case Support => supportList := stored;
            case Resources => resources := stored;
            case FinancialAid => financialAid := stored;
          }
      }
    }

    /** The mount effect: the four loaders, each with its reply. */
    method OnMount(usersReply: Response, supportReply: Response, resourcesReply: Response, aidReply: Response)
      modifies this`users, this`supportList, this`resources, this`financialAid, env`alerts
      ensures List(Users) == LoadStep(old(List(Users)), usersReply)
      ensures List(Support) == LoadStep(old(List(Support)), supportReply)
      ensures List(Resources) == LoadStep(old(List(Resources)), resourcesReply)
      ensures List(FinancialAid) == LoadStep(old(List(FinancialAid)), aidReply)
      ensures env.alerts == old(env.alerts)
                + (if usersReply.Threw? then [FetchFailure(Users)] else [])
                + (if supportReply.Threw? then [FetchFailure(Support)] else [])
                + (if resourcesReply.Threw? then [FetchFailure(Resources)] else [])
                + (if aidReply.Threw? then [FetchFailure(FinancialAid)] else [])
    {
      var _ := FetchList(Users, usersReply);
      var _ := FetchList(Support, supportReply);
      var _ := FetchList(Resources, resourcesReply);
      var _ := FetchList(FinancialAid, aidReply);
    }

    method OpenModal(kind: string, item: Option<Record>)
      modifies this`modalOpen, this`modalType, this`editingItem, this`formData
      ensures Valid() && Modal() == Opened(kind, item)
    {
      modalType := kind;
      editingItem := item;
      formData := if item.Some? then item.value else map[];
      modalOpen := true;
    }

    method CloseModal()
      modifies this`modalOpen, this`editingItem, this`formData
      ensures Valid() && Modal() == Closed(old(Modal()))
    {
      modalOpen := false;
      editingItem := None;
      formData := map[];
    }

    /** A form field's `onChange`; the fields are only on screen while the
        modal is open. */
    method HandleChange(name: string, value: Value)
      requires modalOpen
      modifies this`formData
      ensures Valid() && Modal() == Changed(old(Modal()), name, value)
    {
      formData := formData[name := value];
    }

    /** `handleSave`, given the outcome of the save request and of the
        refetch it triggers. Returns the request sent and the collection
        refetched, if any. */
    method HandleSave(saveReply: Response, refetchReply: Response) returns (sent: Request, refetched: Option<Collection>)
      requires Valid()
      modifies this`modalOpen, this`editingItem, this`formData
      modifies this`users, this`supportList, this`resources, this`financialAid, env`alerts
      ensures Valid()
      ensures sent == SaveRequest(old(modalType), old(editingItem), old(formData))
      ensures Modal() == AfterSave(old(Modal()), saveReply)
      ensures refetched == if saveReply.Threw? then None else KindOfTag(old(modalType))
      ensures forall k :: List(k) == if refetched == Some(k) then LoadStep(old(List(k)), refetchReply) else old(List(k))
      ensures env.alerts == old(env.alerts)
                + (if saveReply.Threw? then ["Failed to save data"] else [])
                + (if refetched.Some? && refetchReply.Threw? then [FetchFailure(refetched.value)] else [])
    {
      var url := "";
      var verb := if editingItem.Some? then "PUT" else "POST";
      if modalType == "user" {
        url := if editingItem.Some? then Origin + "//auth/" + IdText(editingItem.value) else Origin + "/auth/";
      } else if modalType == "support" {
        url := if editingItem.Some? then Origin + "/admin/support/" + IdText(editingItem.value) else Origin + "/admin/support";
      } else if modalType == "resource" {
        url := if editingItem.Some? then Origin + "/resources/" + IdText(editingItem.value) else Origin + "/resources/";
      } else if modalType == "financialAid" {
        url := if editingItem.Some? then Origin + "/financial-aid/" + IdText(editingItem.value) else Origin + "/financial-aid/";
      }
      sent := Request(verb, url, Some(formData));
      assert sent == SaveRequest(modalType, editingItem, formData);

      if saveReply.Threw? {
        env.Alert("Failed to save data");
        return sent, None;
      }

      refetched := None;
      if modalType == "user" {
        refetched := Some(Users);
      } else if modalType == "support" {
        refetched := Some(Support);
      } else if modalType == "resource" {
        refetched := Some(Resources);
      } else if modalType == "financialAid" {
        refetched := Some(FinancialAid);
      }
      assert refetched == KindOfTag(modalType);
      if refetched.Some? {
        var _ := FetchList(refetched.value, refetchReply);
      }
      CloseModal();
    }

    /** `handleDelete(tag, id)`, given the answer to the confirmation
        prompt and the outcomes of the delete and of the refetch. */
    method HandleDelete(tag: string, id: Value, confirmed: bool, deleteReply: Response, refetchReply: Response)
      returns (sent: Option<Request>, refetched: Option<Collection>)
      modifies this`users, this`supportList, this`resources, this`financialAid, env`alerts
      ensures !confirmed ==> sent.None? && refetched.None? && env.alerts == old(env.alerts)
      ensures confirmed ==> sent == Some(DeleteRequest(tag, id))
      ensures refetched == if confirmed && !deleteReply.Threw? then KindOfDeleteTag(tag) else None
      ensures forall k :: List(k) == if refetched == Some(k) then LoadStep(old(List(k)), refetchReply) else old(List(k))
      ensures confirmed ==>
                env.alerts == old(env.alerts)
                  + (if deleteReply.Threw? then ["Failed to delete"] else [])
                  + (if refetched.Some? && refetchReply.Threw? then [FetchFailure(refetched.value)] else [])
    {
      if !confirmed {
        return None, None;
      }
      var url := "";
      if tag == "users" {
        url := Origin + "/auth/" + ToText(id);
      } else if tag == "support" {
        url := Origin + "/admin/support/" + ToText(id);
      } else if tag == "resources" {
        url := Origin + "/resources/" + ToText(id);
      } else if tag == "financialAid" {
        url := Origin + "/financial-aid/" + ToText(id);
      }
      sent := Some(Request("DELETE", url, None));

      if deleteReply.Threw? {
        env.Alert("Failed to delete");
        return sent, None;
      }

      refetched := None;
      if tag == "users" {
        refetched := Some(Users);
      } else if tag == "support" {
        refetched := Some(Support);
      } else if tag == "resources" {
        refetched := Some(Resources);
      } else if tag == "financialAid" {
        refetched := Some(FinancialAid);
      }
      if refetched.Some? {
        var _ := FetchList(refetched.value, refetchReply);
      }
    }

    /** `logout`: forget the stored session and go to the landing page. */
    method Logout()
      modifies env`store, env`route
      ensures env.store == old(env.store) - {SessionKey} && env.route == "/"
    {
      env.store := env.store - {SessionKey};
      env.Navigate("/");
    }
  }
}
