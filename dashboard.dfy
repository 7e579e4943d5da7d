/**
 * The dashboard component's state and the handlers that change it. Each
 * `useState` field is a field of `Dashboard`; each handler is a method that
 * assigns the fields its setters assign and leaves every other one alone.
 * A status message is modelled as the field it sets; the timers that
 * later clear it are not modelled.
 */
module App {
  import opened Records
  import opened Lists
  import opened Views

  /** The admin passcode the login form compares against. */
  const Passcode: string := "patil123"

  /** The two visible counts the products menu offers. */
  const TopCount: nat := 4
  const AllCount: nat := 10

  /** The form fields that have their own change handler. */
  datatype FormField = KindField | NameField | SpendField | SalesField | CategoryField

  /** The form after one field's input element changed to `value`. */
  function WithField(f: FormData, field: FormField, value: string): (g: FormData)
    ensures field == KindField ==> g == f.(kind := value)
    ensures field == NameField ==> g == f.(name := value)
    ensures field == SpendField ==> g == f.(spend := value)
    ensures field == SalesField ==> g == f.(sales := value)
    ensures field == CategoryField ==> g == f.(category := value)
  {
    match field
    case KindField => f.(kind := value)
    case NameField => f.(name := value)
    case SpendField => f.(spend := value)
    case SalesField => f.(sales := value)
    case CategoryField => f.(category := value)
  }

  /** The add handler refuses the form when a required field is empty; `category` is not checked. */
  predicate FormIncomplete(f: FormData)
  {
    f.name == "" || f.spend == "" || f.sales == ""
  }

  /** The form after a successful add: the entered text goes, the choices stay. */
  function ClearedForm(f: FormData): (g: FormData)
    ensures g.kind == f.kind && g.category == f.category
    ensures g.name == "" && g.spend == "" && g.sales == ""
    ensures FormIncomplete(g)
  {
    f.(name := "", spend := "", sales := "")
  }

  class Dashboard {
    var campaigns: seq<Campaign>
    var products: seq<Product>
    var isAdmin: bool
    var passInput: string
    var form: FormData
    var sortOrder: SortOrder
    var selectedCategory: string
    var visibleCount: nat
    var viewMode: ViewMode
    var message: Option<string>
    var isSummaryRefreshing: bool

    /** Record ids stay unique, so that delete-by-id finds at most one record. */
    ghost predicate Valid()
      reads this
    {
      UniqueKeys(campaigns, CampaignId) && UniqueKeys(products, ProductId)
    }

    /** The initial values of the component's state. */
    constructor ()
      ensures Valid()
      ensures campaigns == SeedCampaigns() && products == SeedProducts()
      ensures !isAdmin && passInput == ""
      ensures form == FormData("Campaign", "", "", "", "Electronics")
      ensures sortOrder == Desc && selectedCategory == AllCategories && visibleCount == TopCount
      ensures viewMode == Monthly && message == None && !isSummaryRefreshing
    {
      campaigns := SeedCampaigns();
      products := SeedProducts();
      isAdmin := false;
      passInput := "";
      form := FormData("Campaign", "", "", "", "Electronics");
      sortOrder := Desc;
      selectedCategory := AllCategories;
      visibleCount := TopCount;
      viewMode := Monthly;
      message := None;
      isSummaryRefreshing := false;
    }

    /** `showFeedback`: puts a status message up. */
    method ShowFeedback(text: string)
      modifies this`message
      ensures message == Some(text)
    {
      message := Some(text);
    }

    /** `handleRefresh`: the summary card shows its loading state. */
    method Refresh()
      modifies this`isSummaryRefreshing
      ensures isSummaryRefreshing
    {
      isSummaryRefreshing := true;
    }

    /** The password field's change handler. */
    method EditPassInput(value: string)
      modifies this`passInput
      ensures passInput == value
    {
      passInput := value;
    }

    /**
     * `handleLogin`: the right passcode grants admin mode and clears the
     * field; any other input changes nothing but the message.
     */
    method Login()
      modifies this`isAdmin, this`passInput, this`message
      ensures old(passInput) == Passcode ==>
                isAdmin && passInput == "" && message == Some("Admin Access Granted")
      ensures old(passInput) != Passcode ==>
                isAdmin == old(isAdmin) && passInput == old(passInput) && message == Some("Incorrect Password")
    {
      if passInput == Passcode {
        isAdmin := true;
        passInput := "";
        ShowFeedback("Admin Access Granted");
      } else {
        ShowFeedback("Incorrect Password");
      }
    }

    /** `handleLogout`. */
    method Logout()
      modifies this`isAdmin, this`message
      ensures !isAdmin && message == Some("Admin Logged Out")
    {
      isAdmin := false;
      ShowFeedback("Admin Logged Out");
    }

    /** `deleteCampaign`: drops the campaigns with this id, keeping the rest in order. */
    method DeleteCampaign(id: string)
      requires Valid()
      modifies this`campaigns, this`message
      ensures Valid()
      ensures campaigns == RemoveId(old(campaigns), CampaignId, id)
      ensures message == Some("Campaign Deleted")
    {
      RemoveIdKeepsUnique(campaigns, CampaignId, id);
      campaigns := RemoveId(campaigns, CampaignId, id);
      ShowFeedback("Campaign Deleted");
    }

    /** `deleteProduct`: drops the products with this id, keeping the rest in order. */
    method DeleteProduct(id: string)
      requires Valid()
      modifies this`products, this`message
      ensures Valid()
      ensures products == RemoveId(old(products), ProductId, id)
      ensures message == Some("Product Deleted")
    {
      RemoveIdKeepsUnique(products, ProductId, id);
      products := RemoveId(products, ProductId, id);
      ShowFeedback("Product Deleted");
    }

    /** A form field's change handler. */
    method EditForm(field: FormField, value: string)
      modifies this`form
      ensures form == WithField(old(form), field, value)
    {
      form := WithField(form, field, value);
    }

    /** The ids a record created at time `now` would get are not in use. */
    ghost predicate FreshStamp(now: string)
      reads this
    {
      (forall i :: 0 <= i < |campaigns| ==> campaigns[i].id != "C" + now) &&
      (forall i :: 0 <= i < |products| ==> products[i].id != "P" + now)
    }

    /**
     * `handleAddData`. `parse` stands for `parseFloat`, `now` for the digits
     * of `Date.now()` and `color` for the random colour. An incomplete form
     * changes nothing but the message; otherwise one new record goes in front
     * of the list the form's type selects ('Campaign', or any other value for
     * a product) and the form's text fields are cleared.
     */
    method AddData(parse: string -> real, now: string, color: string)
      requires Valid() && FreshStamp(now)
      modifies this`campaigns, this`products, this`form, this`message
      ensures Valid()
      ensures FormIncomplete(old(form)) ==>
                campaigns == old(campaigns) && products == old(products) && form == old(form) &&
                message == Some("Please fill all fields")
      ensures !FormIncomplete(old(form)) && old(form).kind == "Campaign" ==>
                campaigns == [NewCampaign(old(form).name, parse(old(form).spend), parse(old(form).sales), now, color)]
                             + old(campaigns) &&
                products == old(products) &&
                message == Some("Added Campaign: " + old(form).name)
      ensures !FormIncomplete(old(form)) && old(form).kind != "Campaign" ==>
                products == [NewProduct(old(form).name, parse(old(form).spend), old(form).category, now, color)]
                            + old(products) &&
                campaigns == old(campaigns) &&
                message == Some("Added Product: " + old(form).name)
      ensures !FormIncomplete(old(form)) ==> form == ClearedForm(old(form))
    {
      if FormIncomplete(form) {
        ShowFeedback("Please fill all fields");
        return;
      }
      var spendNum := parse(form.spend);
      var salesNum := parse(form.sales);
      if form.kind == "Campaign" {
        var c := NewCampaign(form.name, spendNum, salesNum, now, color);
        PrependKeepsUnique(c, campaigns, CampaignId);
        campaigns := [c] + campaigns;
        ShowFeedback("Added Campaign: " + form.name);
      } else {
        var p := NewProduct(form.name, spendNum, form.category, now, color);
        PrependKeepsUnique(p, products, ProductId);
        products := [p] + products;
        ShowFeedback("Added Product: " + form.name);
      }
      form := ClearedForm(form);
    }

    /** The ACoS column header: flips between descending and ascending. */
    method ToggleSortOrder()
      modifies this`sortOrder
      ensures sortOrder == if old(sortOrder) == Desc then Asc else Desc
    {
      sortOrder := if sortOrder == Desc then Asc else Desc;
    }

    /** The campaigns menu's two sort entries. */
    method SetSortOrder(order: SortOrder)
      modifies this`sortOrder, this`message
      ensures sortOrder == order
      ensures message == Some(if order == Desc then "Sorted: High to Low" else "Sorted: Low to High")
    {
      sortOrder := order;
      ShowFeedback(if order == Desc then "Sorted: High to Low" else "Sorted: Low to High");
    }

    /** The products menu's category entries ('All', 'Electronics', 'Home'). */
    method SelectCategory(category: string)
      modifies this`selectedCategory
      ensures selectedCategory == category
    {
      selectedCategory := category;
    }

    /** The products menu's "View All (10)" entry. */
    method ViewAll()
      modifies this`visibleCount, this`message
      ensures visibleCount == AllCount && message == Some("Showing all products")
    {
      visibleCount := AllCount;
      ShowFeedback("Showing all products");
    }

    /** The products menu's "Reset Top 4" entry. */
    method ResetTopFour()
      modifies this`visibleCount, this`message
      ensures visibleCount == TopCount && message == Some("Reset to Top 4")
    {
      visibleCount := TopCount;
      ShowFeedback("Reset to Top 4");
    }

    /** The graph menu's two entries: the sample set is replaced as a whole. */
    method SetViewMode(mode: ViewMode)
      modifies this`viewMode, this`message
      ensures viewMode == mode
      ensures message == Some(if mode == Monthly then "View: Monthly" else "View: Yearly")
    {
      viewMode := mode;
      ShowFeedback(if mode == Monthly then "View: Monthly" else "View: Yearly");
    }

    /** `sortedCampaigns`, read from the current state. */
    function SortedCampaigns(): (rows: seq<Campaign>)
      reads this
      ensures multiset(rows) == multiset(campaigns) && Ordered(sortOrder, rows)
    {
      SortByAcos(sortOrder, campaigns)
    }

    /** `filteredProducts`, read from the current state. */
    function FilteredProducts(): (shown: seq<Product>)
      reads this
      ensures shown <= CategoryMatches(products, selectedCategory)
      ensures var n := |CategoryMatches(products, selectedCategory)|;
              |shown| == if visibleCount < n then visibleCount else n
      ensures selectedCategory != AllCategories ==>
                forall i :: 0 <= i < |shown| ==> shown[i].category == selectedCategory
    {
      VisibleProducts(products, selectedCategory, visibleCount)
    }

    /** `totalFilteredSpend`, read from the current state. */
    function TotalFilteredSpend(): (total: real)
      reads this
      ensures total == SpendTotal(FilteredProducts())
    {
      TotalVisibleSpend(products, selectedCategory, visibleCount)
    }
  }

  /** A record with a new key can go in front of a list without repeating a key. */
  lemma PrependKeepsUnique<T>(x: T, s: seq<T>, key: T -> string)
    requires UniqueKeys(s, key)
    requires forall i :: 0 <= i < |s| ==> key(s[i]) != key(x)
    ensures UniqueKeys([x] + s, key)
  {
    var t := [x] + s;
    forall i, j | 0 <= i < j < |t| ensures key(t[i]) != key(t[j]) {
      assert t[j] == s[j - 1];
      if i > 0 {
        assert t[i] == s[i - 1];
      }
    }
  }
}
