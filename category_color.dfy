/** `getCategoryColor` of the magazine list page: the CSS class of a
    category badge. */
module CategoryColor {
  const ClassPrefix := "magazine-category-"
  const DefaultClass := "magazine-category-default"

  /** `colorMap`: the eight known categories and their classes. */
  const ColorMap: map<string, string> := map[
    "인공지능" := "magazine-category-ai",
    "웹개발" := "magazine-category-web",
    "클라우드" := "magazine-category-cloud",
    "보안" := "magazine-category-security",
    "모바일" := "magazine-category-mobile",
    "데이터사이언스" := "magazine-category-data",
    "블록체인" := "magazine-category-blockchain",
    "DevOps" := "magazine-category-devops"
  ]

  predicate StartsWithPrefix(s: string)
  {
    |ClassPrefix| < |s| && s[..|ClassPrefix|] == ClassPrefix
  }

  /** `colorMap[category] || "magazine-category-default"`: every class has
      the common prefix, and the default is used exactly for the categories
      the map does not list. */
  function CategoryClass(category: string): (cls: string)
    ensures StartsWithPrefix(cls)
    ensures cls == DefaultClass <==> category !in ColorMap
    ensures category in ColorMap ==> cls == ColorMap[category]
  {
    if category in ColorMap && ColorMap[category] != "" then ColorMap[category] else DefaultClass
  }

  /** The eight known classes are pairwise distinct, so two listed
      categories never share a badge colour. */
  lemma KnownClassesDistinct(a: string, b: string)
    requires a in ColorMap && b in ColorMap && a != b
    ensures CategoryClass(a) != CategoryClass(b)
  {
  }
}
