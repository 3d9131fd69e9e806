/**
 * The article cards of the AI section (src/lib/data/articles.ts) and the category
 * filter derived from them: "全部" ("all") followed by the articles' categories, each
 * once, in the order they first appear. The `icon` component of each card is left out.
 */
module Articles {

  datatype Article = Article(id: int, title: string, description: string, category: string, date: string)

  /** The first filter entry, which shows every article. */
  const AllLabel: string := "全部"

  const AllArticles: seq<Article> := [
    Article(1, "MCP 入门指南",
            "Model Context Protocol 的核心概念、架构设计和实际应用场景全面解析。",
            "Protocol", "2024-12"),
    Article(2, "n8n 自动化工作流",
            "使用 n8n 构建 AI 驱动的自动化工作流，提升日常工作效率的实战经验。",
            "Automation", "2024-11"),
    Article(3, "LLM 提示词工程",
            "从基础到高级的提示词设计技巧，让大语言模型输出更精准、更有价值的内容。",
            "LLM", "2024-10"),
    Article(4, "AI Agent 开发实践",
            "构建智能 Agent 的核心思路：规划、记忆、工具调用和多 Agent 协作。",
            "Agent", "2024-09"),
    Article(5, "RAG 系统优化",
            "检索增强生成（RAG）的进阶技巧，包括分块策略、检索优化和答案生成。",
            "RAG", "2024-08"),
    Article(6, "AI 开发工具链",
            "推荐一些实用的 AI 开发工具：Cursor、Claude、GPT、Langchain 等使用心得。",
            "Tools", "2024-07")
  ]

  predicate NoDuplicates<T(==)>(s: seq<T>) {
    forall i, j :: 0 <= i < j < |s| ==> s[i] != s[j]
  }

  /** The position of the first occurrence of `x` in `s`. */
  function IndexOf<T(==)>(s: seq<T>, x: T): (k: nat)
    requires x in s
    ensures k < |s| && s[k] == x
    ensures forall j :: 0 <= j < k ==> s[j] != x
  {
    if s[0] == x then 0 else 1 + IndexOf(s[1..], x)
  }

  /** An element of a prefix first occurs in the whole sequence where it first occurs
      in the prefix. */
  lemma IndexOfPrefix<T>(s: seq<T>, n: nat, x: T)
    requires n <= |s| && x in s[..n]
    ensures IndexOf(s, x) == IndexOf(s[..n], x)
  {
    var k := IndexOf(s[..n], x);
    var m := IndexOf(s, x);
    assert s[k] == x;
    assert m <= k;
    assert s[..n][m] == x;
  }

  /** `Array.from(new Set(s))`: the distinct values of `s`, in order of first occurrence. */
  function Distinct<T(==)>(s: seq<T>): (r: seq<T>)
    ensures NoDuplicates(r)
    ensures forall i :: 0 <= i < |s| ==> s[i] in r
    ensures forall i :: 0 <= i < |r| ==> r[i] in s
  {
    if s == [] then []
    else
      var init := s[..|s| - 1];
      var last := s[|s| - 1];
      var d := Distinct(init);
      assert forall i :: 0 <= i < |init| ==> init[i] == s[i];
      if last in d then d else d + [last]
  }

  /** The distinct values keep the order in which they first occur. */
  lemma {:induction false} DistinctKeepsFirstOccurrenceOrder<T>(s: seq<T>, i: int, j: int)
    requires 0 <= i < j < |Distinct(s)|
    ensures IndexOf(s, Distinct(s)[i]) < IndexOf(s, Distinct(s)[j])
  {
    var n := |s| - 1;
    var init := s[..n];
    var d := Distinct(init);
    IndexOfPrefix(s, n, d[i]);
    if j < |d| {
      assert Distinct(s)[i] == d[i] && Distinct(s)[j] == d[j];
      DistinctKeepsFirstOccurrenceOrder(init, i, j);
      IndexOfPrefix(s, n, d[j]);
    } else {
      assert Distinct(s) == d + [s[n]];
      forall k | 0 <= k < n ensures s[k] != s[n] {
        assert init[k] == s[k] && init[k] in d;
      }
    }
  }

  /** A sequence without duplicates is its own set of distinct values. */
  lemma {:induction false} DistinctOfDistinctValues<T>(s: seq<T>)
    requires NoDuplicates(s)
    ensures Distinct(s) == s
  {
    if s != [] {
      var init := s[..|s| - 1];
      DistinctOfDistinctValues(init);
      assert s[|s| - 1] !in init;
      assert s == init + [s[|s| - 1]];
    }
  }

  /** `articles.map(a => a.category)`. */
  function Categories(articles: seq<Article>): (r: seq<string>)
    ensures |r| == |articles|
    ensures forall i :: 0 <= i < |articles| ==> r[i] == articles[i].category
  {
    seq(|articles|, i requires 0 <= i < |articles| => articles[i].category)
  }

  /** `["全部", ...Array.from(new Set(articles.map(a => a.category)))]`. */
  function CategoryFilter(articles: seq<Article>): (r: seq<string>)
    ensures |r| >= 1 && r[0] == AllLabel
  {
    [AllLabel] + Distinct(Categories(articles))
  }

  /** After "全部" the filter lists each article's category, once, and nothing else. */
  lemma CategoryFilterListsEachCategoryOnce(articles: seq<Article>)
    ensures var r := CategoryFilter(articles);
            && NoDuplicates(r[1..])
            && (forall i :: 0 <= i < |articles| ==> articles[i].category in r[1..])
            && (forall k :: 1 <= k < |r| ==> exists i :: 0 <= i < |articles| && articles[i].category == r[k])
  {
    var cats := Categories(articles);
    var r := CategoryFilter(articles);
    assert r[1..] == Distinct(cats);
    forall i | 0 <= i < |articles| ensures articles[i].category in r[1..] {
      assert cats[i] in Distinct(cats);
    }
    forall k | 1 <= k < |r| ensures exists i :: 0 <= i < |articles| && articles[i].category == r[k] {
      assert r[k] == r[1..][k - 1];
      var i :| 0 <= i < |cats| && cats[i] == r[k];
    }
  }

  /** The category filter of the shown articles. */
  lemma CategoryFilterOfArticles()
    ensures CategoryFilter(AllArticles) == ["全部", "Protocol", "Automation", "LLM", "Agent", "RAG", "Tools"]
  {
    var cats := Categories(AllArticles);
    ArticleCategories();
    DistinctOfDistinctValues(cats);
    assert CategoryFilter(AllArticles) == [AllLabel] + cats;
  }

  /** The shown articles' categories, which are all different. */
  lemma ArticleCategories()
    ensures Categories(AllArticles) == ["Protocol", "Automation", "LLM", "Agent", "RAG", "Tools"]
    ensures NoDuplicates(Categories(AllArticles))
  {
    var cats := Categories(AllArticles);
    forall i | 0 <= i < 6
      ensures cats[i] == ["Protocol", "Automation", "LLM", "Agent", "RAG", "Tools"][i]
    {
    }
    assert |cats[0]| == 8 && |cats[1]| == 10 && |cats[2]| == 3 && |cats[3]| == 5 && |cats[4]| == 3 && |cats[5]| == 5;
    assert cats[2][0] != cats[4][0] && cats[3][0] != cats[5][0];
  }

  /** The articles are numbered 1 to 6 in order, so no two share an id. */
  lemma ArticleIdsAreDistinct()
    ensures |AllArticles| == 6
    ensures forall i :: 0 <= i < |AllArticles| ==> AllArticles[i].id == i + 1
    ensures forall i, j :: 0 <= i < j < |AllArticles| ==> AllArticles[i].id != AllArticles[j].id
  {
  }
}
