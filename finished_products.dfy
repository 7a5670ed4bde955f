/**
 * The finished-products list: the status select and the search box that
 * filter it, the reset button, and the colour of each status chip.
 */
module FinishedProducts {
  import opened Common
  import opened Text

  /**
   * One product. `customerName` is `orderDetails?.customerName`, None when
   * `orderDetails` is missing; `order_id` is always a string.
   */
  datatype Product = Product(orderId: string, status: string, customerName: Option<string>)

  /** The `filters` state. */
  datatype Filters = Filters(status: string, search: string)

  /** The `name` of the two filter inputs. */
  datatype FilterKey = StatusKey | SearchKey

  const NoFilters := Filters("", "")

  /**
   * A product is kept when the status is not chosen or is its status, and
   * the search is empty, or is in its order id exactly, or is in its
   * customer name ignoring case.
   */
  predicate Keep(p: Product, f: Filters) {
    && (f.status == "" || p.status == f.status)
    && (f.search == "" || Contains(p.orderId, f.search)
        || (p.customerName.Some? && ContainsIgnoreCase(p.customerName.value, f.search)))
  }

  /** `filteredProducts`. */
  function Filtered(ps: seq<Product>, f: Filters): (r: seq<Product>)
    ensures |r| <= |ps|
  {
    Filter(ps, p => Keep(p, f))
  }

  /** A product is listed exactly when it passes the filters, and the list keeps the products' order. */
  lemma FilteredMembers(ps: seq<Product>, f: Filters)
    ensures forall p :: p in Filtered(ps, f) <==> p in ps && Keep(p, f)
    ensures IsSubsequence(Filtered(ps, f), ps)
  {
    FilterMembers(ps, p => Keep(p, f));
    FilterSubsequence(ps, p => Keep(p, f));
  }

  /** With no filters every product is listed, in order. */
  lemma NoFiltersKeepAll(ps: seq<Product>)
    ensures Filtered(ps, NoFilters) == ps
  {
    FilterAll(ps, p => Keep(p, NoFilters));
  }

  /** `getStatusColor`: the four known statuses have their colour, anything else the default. */
  function StatusColor(status: string): (c: Color)
    ensures status == "delivered" <==> c == Success
    ensures status == "pending" <==> c == Warning
    ensures status == "completed" <==> c == Primary
    ensures status == "out_of_stock" <==> c == Error
    ensures c == Default <==> status !in {"delivered", "pending", "completed", "out_of_stock"}
  {
    match status
    case "delivered" => Success
    case "pending" => Warning
    case "completed" => Primary
    case "out_of_stock" => Error
    case _ => Default
  }

  /** `{ ...filters, [name]: value }`: the named filter takes the value, the other keeps its own. */
  function SetFilter(f: Filters, key: FilterKey, value: string): (r: Filters)
    ensures key == StatusKey ==> r.status == value && r.search == f.search
    ensures key == SearchKey ==> r.search == value && r.status == f.status
  {
    match key
    case StatusKey => f.(status := value)
    case SearchKey => f.(search := value)
  }

  /** The screen's list state. */
  class ProductsScreen {
    var products: seq<Product>
    var filters: Filters

    constructor ()
      ensures products == [] && filters == NoFilters
    {
      products := [];
      filters := NoFilters;
    }

    /** The products on show. */
    function Rows(): (r: seq<Product>)
      reads this
      ensures IsSubsequence(r, products)
    {
      FilteredMembers(products, filters);
      Filtered(products, filters)
    }

    /** `fetchProducts`: the products the service returns, or none and a toast when it fails. */
    method Loaded(data: Option<seq<Product>>) returns (notice: Option<Notice>)
      modifies this
      ensures products == data.GetOr([]) && filters == old(filters)
      ensures notice == if data.None? then Some(Failed("Failed to load products")) else None
    {
      if data.Some? {
        products := data.value;
        notice := None;
      } else {
        products := [];
        notice := Some(Failed("Failed to load products"));
      }
    }

    /** `handleFilterChange` for the input named `key`. */
    method ChangeFilter(key: FilterKey, value: string)
      modifies this
      ensures filters == SetFilter(old(filters), key, value) && products == old(products)
    {
      filters := SetFilter(filters, key, value);
    }

    /** `handleResetFilters`: both filters cleared, and so every product listed again. */
    method ResetFilters()
      modifies this
      ensures filters == NoFilters && products == old(products)
      ensures Rows() == products
    {
      filters := NoFilters;
      NoFiltersKeepAll(products);
    }
  }
}
