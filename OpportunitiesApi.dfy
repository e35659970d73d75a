/**
 * The opportunity query layer: a fixed store of eight listings (three
 * featured, five others) and the three lookups the screens use.
 */
module OpportunitiesApi {
  import opened JsString
  import opened Types
  import opened Listings

  /** Address of an Unsplash photo in the size every listing uses. */
  function UnsplashPhoto(photo: string): (url: string)
  {
    "https://images.unsplash.com/photo-" + photo + "?ixlib=rb-1.2.1&auto=format&fit=crop&w=500&q=60"
  }

  const Listing1: Opportunity := Opportunity(
    id := "1",
    title := "Campanha de Arrecadação de Alimentos",
    organization := "Banco de Alimentos",
    category := "Combate à Fome",
    location := "São Paulo, SP",
    date := "15/06/2023",
    image := UnsplashPhoto("1593113630400-ea4288922497"),
    description := "Ajude a arrecadar alimentos não " +
                   "perecíveis para famílias em situação " +
                   "de vulnerabilidade social. " +
                   "Precisamos de voluntários para " +
                   "organizar as doações e montar as " +
                   "cestas básicas.",
    requirements := "Disponibilidade aos sábados, das 9h " +
                    "às 13h.",
    contactPhone := "(11) 99999-9999",
    contactEmail := "contato@bancodealimentos.org",
    website := "https://www.bancodealimentos.org.br",
    isFeatured := true)

  const Listing2: Opportunity := Opportunity(
    id := "2",
    title := "Abrigo de Animais - Cuidadores " +
             "Voluntários",
    organization := "Patinhas Felizes",
    category := "Proteção Animal",
    location := "Rio de Janeiro, RJ",
    date := "Todos os finais de semana",
    image := UnsplashPhoto("1548199973-03cce0bbc87b"),
    description := "Nosso abrigo precisa de voluntários " +
                   "para ajudar a cuidar dos animais " +
                   "resgatados. As atividades incluem " +
                   "alimentação, limpeza, passeios e " +
                   "carinho para os bichinhos.",
    requirements := "Amor pelos animais e disponibilidade " +
                    "nos finais de semana.",
    contactPhone := "(21) 98888-8888",
    contactEmail := "voluntarios@patinhasfelizes.org",
    website := "https://www.patinhasfelizes.org",
    isFeatured := true)

  const Listing3: Opportunity := Opportunity(
    id := "3",
    title := "Mutirão de Limpeza de Praia",
    organization := "Oceano Limpo",
    category := "Meio Ambiente",
    location := "Salvador, BA",
    date := "22/06/2023",
    image := UnsplashPhoto("1618477461853-cf6ed80faba5"),
    description := "Participe do nosso mutirão de " +
                   "limpeza da Praia do Forte. Juntos " +
                   "podemos fazer a diferença para o " +
                   "meio ambiente e os animais marinhos.",
    requirements := "Levar luvas e protetor solar. " +
                    "Recomendado uso de chapéu.",
    contactPhone := "(71) 97777-7777",
    contactEmail := "acao@oceanolimpo.org",
    website := "https://www.oceanolimpo.org",
    isFeatured := true)

  const Listing4: Opportunity := Opportunity(
    id := "4",
    title := "Aulas de Reforço para Crianças",
    organization := "Educação para Todos",
    category := "Educação",
    location := "Belo Horizonte, MG",
    date := "Segundas e Quartas, 14h às 16h",
    image := UnsplashPhoto("1503676260728-1c00da094a0b"),
    description := "Procuramos voluntários para dar " +
                   "aulas de reforço em matemática e " +
                   "português para crianças do ensino " +
                   "fundamental.",
    requirements := "Conhecimento nas disciplinas e " +
                    "experiência com crianças.",
    contactPhone := "(31) 96666-6666",
    contactEmail := "voluntarios@educacaoparatodos.org",
    website := "https://www.educacaoparatodos.org",
    isFeatured := false)

  const Listing5: Opportunity := Opportunity(
    id := "5",
    title := "Doação de Sangue Coletiva",
    organization := "Hemocentro Regional",
    category := "Saúde",
    location := "Curitiba, PR",
    date := "30/06/2023",
    image := UnsplashPhoto("1615461066841-6116e61058f4"),
    description := "Campanha de doação de sangue para " +
                   "abastecer os estoques do Hemocentro " +
                   "Regional. Uma doação pode salvar até " +
                   "4 vidas!",
    requirements := "Estar em boas condições de saúde, " +
                    "ter entre 16 e 69 anos e pesar mais " +
                    "de 50kg.",
    contactPhone := "(41) 95555-5555",
    contactEmail := "doacao@hemocentro.org",
    website := "https://www.hemocentro.org",
    isFeatured := false)

  const Listing6: Opportunity := Opportunity(
    id := "6",
    title := "Construção de Casas Populares",
    organization := "Teto Brasil",
    category := "Habitação",
    location := "Recife, PE",
    date := "15-17/07/2023",
    image := UnsplashPhoto("1503596476-1c12a8ba09a9"),
    description := "Ajude a construir casas de " +
                   "emergência para famílias em situação " +
                   "de extrema pobreza. Um final de " +
                   "semana de trabalho que transforma " +
                   "vidas.",
    requirements := "Disposição para trabalho físico. Não " +
                    "é necessário conhecimento prévio em " +
                    "construção.",
    contactPhone := "(81) 94444-4444",
    contactEmail := "voluntarios@tetobrasil.org",
    website := "https://www.tetobrasil.org",
    isFeatured := false)

  const Listing7: Opportunity := Opportunity(
    id := "7",
    title := "Campanha de Agasalho",
    organization := "Solidariedade Inverno",
    category := "Assistência Social",
    location := "Porto Alegre, RS",
    date := "Todo o mês de junho",
    image := UnsplashPhoto("1516762689617-e1cffcef479d"),
    description := "Arrecadação de agasalhos, cobertores " +
                   "e roupas de inverno para pessoas em " +
                   "situação de rua durante o inverno.",
    requirements := "Pode ajudar doando ou como " +
                    "voluntário nos pontos de coleta.",
    contactPhone := "(51) 93333-3333",
    contactEmail := "contato@solidariedadeinverno.org",
    website := "https://www.solidariedadeinverno.org",
    isFeatured := false)

  const Listing8: Opportunity := Opportunity(
    id := "8",
    title := "Plantio de Árvores Nativas",
    organization := "Refloresta Brasil",
    category := "Meio Ambiente",
    location := "Brasília, DF",
    date := "08/07/2023",
    image := UnsplashPhoto("1542601906990-b4d3fb778b09"),
    description := "Participe do plantio de mudas de " +
                   "árvores nativas do Cerrado para " +
                   "recuperação de áreas degradadas.",
    requirements := "Levar água, protetor solar e roupas " +
                    "adequadas para atividade ao ar " +
                    "livre.",
    contactPhone := "(61) 92222-2222",
    contactEmail := "acao@reflorestabrasil.org",
    website := "https://www.reflorestabrasil.org",
    isFeatured := false)

  /** The curated listings shown on the landing screen, in declaration order. */
  function FeaturedOpportunities(): seq<Opportunity>
  {
    [Listing1, Listing2, Listing3]
  }

  /** The remaining listings, in declaration order. */
  function OtherOpportunities(): seq<Opportunity>
  {
    [Listing4, Listing5, Listing6, Listing7, Listing8]
  }

  /** `fetchFeaturedOpportunities`: the featured listings, ids "1" to "3"
      in declaration order, all flagged featured. */
  function FetchFeaturedOpportunities(): (r: seq<Opportunity>)
    ensures Ids(r) == ["1", "2", "3"]
    ensures forall i | 0 <= i < |r| :: r[i].isFeatured
  {
    FeaturedOpportunities()
  }

  /** `fetchAllOpportunities`: the three featured listings followed by the
      five others, each list in declaration order. */
  function FetchAllOpportunities(): (r: seq<Opportunity>)
    ensures |r| == 8
    ensures r[..3] == FetchFeaturedOpportunities() && r[3..] == OtherOpportunities()
  {
    FetchFeaturedOpportunities() + OtherOpportunities()
  }

  /** The ids of all listings are "1" to "8", in order. */
  lemma AllIds()
    ensures Ids(FetchAllOpportunities()) == ["1", "2", "3", "4", "5", "6", "7", "8"]
  {
    var all := FetchAllOpportunities();
    assert Ids(all[..3]) == ["1", "2", "3"];
    assert all[3].id == "4" && all[4].id == "5" && all[5].id == "6";
    assert all[6].id == "7" && all[7].id == "8";
  }

  /** The eight ids are pairwise distinct. */
  lemma AllIdsDistinct()
    ensures DistinctIds(FetchAllOpportunities())
  {
    AllIds();
    OneToEightDistinct();
    DistinctIdsFromIds(FetchAllOpportunities(), ["1", "2", "3", "4", "5", "6", "7", "8"]);
  }

  lemma OneToEightDistinct()
    ensures var ids := ["1", "2", "3", "4", "5", "6", "7", "8"];
            forall i, j | 0 <= i < j < |ids| :: ids[i] != ids[j]
  {
  }

  /** `fetchOpportunityById`: the first of all listings with the given id,
      or `undefined` (never an error) when no listing has it. */
  function FetchOpportunityById(id: string): (r: Option<Opportunity>)
    ensures r.None? <==> id !in ["1", "2", "3", "4", "5", "6", "7", "8"]
    ensures r.Some? ==> r.value.id == id && r.value in FetchAllOpportunities()
  {
    AllIds();
    Find(FetchAllOpportunities(), id)
  }

  /** The lookup scans the listings in order: what it returns sits at
      position `i` of all listings and no earlier listing has the id. */
  lemma FetchByIdIsFirst(id: string) returns (i: nat)
    requires FetchOpportunityById(id).Some?
    ensures i < |FetchAllOpportunities()| && FetchAllOpportunities()[i] == FetchOpportunityById(id).value
    ensures forall j | 0 <= j < i :: FetchAllOpportunities()[j].id != id
  {
    i := FindFirst(FetchAllOpportunities(), id);
  }

  /** Every listed id is found, and finds the one listing that carries it. */
  lemma FetchByListedId(i: nat)
    requires i < |FetchAllOpportunities()|
    ensures FetchOpportunityById(FetchAllOpportunities()[i].id) == Some(FetchAllOpportunities()[i])
  {
    AllIdsDistinct();
    FindListed(FetchAllOpportunities(), i);
  }

  /** The featured flag agrees with the list a listing is declared in. */
  lemma FeaturedFlags()
    ensures forall i | 0 <= i < |FeaturedOpportunities()| :: FeaturedOpportunities()[i].isFeatured
    ensures forall i | 0 <= i < |OtherOpportunities()| :: !OtherOpportunities()[i].isFeatured
  {
  }

  /** Every stored location has exactly one comma, and what follows it is,
      once trimmed, a two-letter state code. */
  lemma LocationsWellFormed()
    ensures forall i | 0 <= i < |FetchAllOpportunities()| :: IsCityState(FetchAllOpportunities()[i].location)
  {
    var all := FetchAllOpportunities();
    forall i | 0 <= i < |all| ensures IsCityState(all[i].location) {
      if i == 0 { assert all[i] == Listing1; Listing1Location(); }
      else if i == 1 { assert all[i] == Listing2; Listing2Location(); }
      else if i == 2 { assert all[i] == Listing3; Listing3Location(); }
      else if i == 3 { assert all[i] == Listing4; Listing4Location(); }
      else if i == 4 { assert all[i] == Listing5; Listing5Location(); }
      else if i == 5 { assert all[i] == Listing6; Listing6Location(); }
      else if i == 6 { assert all[i] == Listing7; Listing7Location(); }
      else if i == 7 { assert all[i] == Listing8; Listing8Location(); }
    }
  }

  // One lemma per record keeps each proof about a single stored literal.

  lemma Listing1Location()
    ensures IsCityState(Listing1.location)
  {
    CityState(Listing1.location, "São Paulo", "SP");
  }

  lemma Listing2Location()
    ensures IsCityState(Listing2.location)
  {
    CityState(Listing2.location, "Rio de Janeiro", "RJ");
  }

  lemma Listing3Location()
    ensures IsCityState(Listing3.location)
  {
    CityState(Listing3.location, "Salvador", "BA");
  }

  lemma Listing4Location()
    ensures IsCityState(Listing4.location)
  {
    CityState(Listing4.location, "Belo Horizonte", "MG");
  }

  lemma Listing5Location()
    ensures IsCityState(Listing5.location)
  {
    CityState(Listing5.location, "Curitiba", "PR");
  }

  lemma Listing6Location()
    ensures IsCityState(Listing6.location)
  {
    CityState(Listing6.location, "Recife", "PE");
  }

  lemma Listing7Location()
    ensures IsCityState(Listing7.location)
  {
    CityState(Listing7.location, "Porto Alegre", "RS");
  }

  lemma Listing8Location()
    ensures IsCityState(Listing8.location)
  {
    CityState(Listing8.location, "Brasília", "DF");
  }
}
