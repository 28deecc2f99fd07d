/** The menu builder page (`MenuBuilder`): a list of courses built one dish
    at a time from a form, a suggestion text per course, and the hand-off of
    the list to the content preview. */
module MenuBuilder {
  import opened Text

  /** A dish of the menu; `id` is the creation timestamp as text. */
  datatype CourseItem = CourseItem(id: string, course: string, name: string, description: string, price: string)

  /** The `currentItem` form (a `Partial<MenuItem>`); an absent field is "". */
  datatype CourseForm = CourseForm(course: string, name: string, description: string, price: string)

  /** The course ids of the `courses` list, in button order. */
  const Courses: seq<string> := ["appetizer", "soup", "main", "dessert", "beverage"]

  /** The form after a reset: the appetizer course and empty texts. */
  const EmptyForm := CourseForm("appetizer", "", "", "")

  /** The texts of the `descriptions` object literal of
      `mockGenerateDescription`, as written (the dessert text carries the
      mis-decoded "é" of its source file). */
  const AppetizerSuggestion := "Delicate truffle arancini with aged parmesan and micro herbs"
  const SoupSuggestion := "Rich butternut squash bisque with roasted chestnuts and sage"
  const MainSuggestion := "Pan-seared duck breast with cherry gastrique and seasonal vegetables"
  const DessertSuggestion := "Decadent chocolate souffl√© with vanilla bean ice cream"
  const BeverageSuggestion := "House-crafted sangria with seasonal fruits and premium spirits"

  function Descriptions(): map<string, string> {
    map[
      "appetizer" := AppetizerSuggestion,
      "soup" := SoupSuggestion,
      "main" := MainSuggestion,
      "dessert" := DessertSuggestion,
      "beverage" := BeverageSuggestion
    ]
  }

  const DefaultDescription := "Exquisite culinary creation"

  /** `descriptions[courseName] || "Exquisite culinary creation"`: the fixed
      text of a known course, the default text for any other key. */
  function MockGenerateDescription(courseName: string): (r: string)
    ensures courseName in Courses ==> r == Descriptions()[courseName]
    ensures courseName !in Courses ==> r == DefaultDescription
    ensures r != ""
  {
    OrElse(if courseName in Descriptions() then Descriptions()[courseName] else "", DefaultDescription)
  }

  /** Each course has its own suggestion, and none is the default text. */
  lemma SuggestionsDistinct(a: string, b: string)
    requires a in Courses && b in Courses && a != b
    ensures MockGenerateDescription(a) != MockGenerateDescription(b)
    ensures MockGenerateDescription(a) != DefaultDescription
  {
    assert |AppetizerSuggestion| == 60;
    assert |SoupSuggestion| == 60;
    assert |MainSuggestion| == 68;
    assert |DessertSuggestion| == 55;
    assert |BeverageSuggestion| == 62;
    assert |DefaultDescription| == 27;
  }

  /** The dish the form describes. */
  function NewItem(id: string, f: CourseForm): (item: CourseItem)
    ensures item.id == id && item.course == f.course && item.name == f.name
    ensures item.description == f.description && item.price == f.price
  {
    CourseItem(id, f.course, f.name, f.description, OrElse(f.price, ""))
  }

  /** Whether `addMenuItem` accepts the form. */
  predicate Complete(f: CourseForm) {
    f.name != "" && f.description != "" && f.course != ""
  }

  /** The page's state: the menu so far and the form. */
  class MenuBuilderPage {
    var menuItems: seq<CourseItem>
    var currentItem: CourseForm

    /** Every listed dish was complete when added, and the form's course is
        one of the course ids. */
    ghost predicate Valid()
      reads this
    {
      (forall i :: 0 <= i < |menuItems| ==>
         menuItems[i].name != "" && menuItems[i].description != "" && menuItems[i].course in Courses)
      && currentItem.course in Courses
    }

    constructor ()
      ensures Valid()
      ensures menuItems == [] && currentItem == EmptyForm
    {
      menuItems := [];
      currentItem := EmptyForm;
    }

    /** A course button: `{ ...currentItem, course: course.id }`. */
    method SelectCourse(k: nat)
      requires Valid()
      requires k < |Courses|
      modifies this`currentItem
      ensures Valid()
      ensures currentItem == old(currentItem).(course := Courses[k])
    {
      currentItem := currentItem.(course := Courses[k]);
    }

    /** Typing into the dish name, description or price input. */
    method EditName(value: string)
      requires Valid()
      modifies this`currentItem
      ensures Valid()
      ensures currentItem == old(currentItem).(name := value)
    {
      currentItem := currentItem.(name := value);
    }

    method EditDescription(value: string)
      requires Valid()
      modifies this`currentItem
      ensures Valid()
      ensures currentItem == old(currentItem).(description := value)
    {
      currentItem := currentItem.(description := value);
    }

    method EditPrice(value: string)
      requires Valid()
      modifies this`currentItem
      ensures Valid()
      ensures currentItem == old(currentItem).(price := value)
    {
      currentItem := currentItem.(price := value);
    }

    /** The "AI Suggest" button: the course's suggestion replaces the
        description when a course is set. */
    method SuggestDescription()
      requires Valid()
      modifies this`currentItem
      ensures Valid()
      ensures old(currentItem).course == "" ==> currentItem == old(currentItem)
      ensures old(currentItem).course != "" ==>
                currentItem == old(currentItem).(description := MockGenerateDescription(old(currentItem).course))
    {
      if currentItem.course != "" {
        currentItem := currentItem.(description := MockGenerateDescription(currentItem.course));
      }
    }

    /** `addMenuItem`: a complete form is appended as the last dish, whatever
        the length of the menu, and the form is reset; an incomplete one
        changes nothing. */
    method AddMenuItem(id: string)
      requires Valid()
      modifies this
      ensures Valid()
      ensures Complete(old(currentItem)) ==>
                menuItems == old(menuItems) + [NewItem(id, old(currentItem))] && currentItem == EmptyForm
      ensures !Complete(old(currentItem)) ==>
                menuItems == old(menuItems) && currentItem == old(currentItem)
    {
      if currentItem.name != "" && currentItem.description != "" && currentItem.course != "" {
        var item := NewItem(id, currentItem);
        menuItems := menuItems + [item];
        currentItem := EmptyForm;
      }
    }

    /** Whether the Generate button and the "Ready for AI Content" note are
        shown: from three dishes on. An offered Generate never meets the
        empty-menu guard of `GenerateContent`. */
    predicate OffersGenerate()
      reads this
      ensures OffersGenerate() ==> menuItems != [] && |menuItems| > 2
    {
      |menuItems| >= 3
    }

    /** `generateContent`: nothing on an empty menu; otherwise the menu, as
        the navigation state handed to the content preview. */
    method GenerateContent() returns (state: Option<seq<CourseItem>>)
      ensures state.None? <==> menuItems == []
      ensures state.Some? ==> state.value == menuItems
      ensures OffersGenerate() ==> state == Some(menuItems)
    {
      if |menuItems| == 0 {
        return None;
      }
      state := Some(menuItems);
    }
  }
}
