/**
 * The dish record the front end receives from its menu source and passes to
 * the cart, the menu page and the dish card. The record's declaring file
 * (frontend/src/services/mockApi.ts) is not part of this model; the fields
 * are the ones those components read, and the fixtures are the first dishes
 * of the static menu data, with image URLs shortened to their file names.
 */
module MenuTypes {

  datatype MenuItem = MenuItem(
    id: string,
    name: string,
    category: string,
    description: string,
    priceSek: int,
    allergens: seq<string>,
    tags: seq<string>,
    imageUrl: string,
    imageAlt: string)

  /** The menu source's payload: restaurant name, currency, date of the data, and the dishes. */
  datatype MenuData = MenuData(restaurant: string, currency: string, lastUpdated: string, dishes: seq<MenuItem>)

  function Category(dish: MenuItem): string
  {
    dish.category
  }

  /** Fixture: dish SE-001 of the static menu data (139 kr). */
  const Kottbullar := MenuItem(
    "SE-001", "K\U{00F6}ttbullar med potatismos och lingon", "Husmanskost",
    "Saftiga n\U{00F6}t- och fl\U{00E4}skk\U{00F6}ttbullar serverade med sm\U{00F6}rigt potatismos, gr\U{00E4}dds\U{00E5}s, pressgurka och r\U{00E5}r\U{00F6}rda lingon.",
    139, ["gluten", "laktos", "\U{00E4}gg"], ["klassiker", "k\U{00F6}tt", "comfort-food"],
    "meatballs.png", "K\U{00F6}ttbullar med potatismos, gr\U{00E4}dds\U{00E5}s och lingon")

  /** Fixture: dish SE-002 of the static menu data (149 kr). */
  const Kalops := MenuItem(
    "SE-002", "Kalops med kokt potatis och r\U{00F6}dbetor", "Husmanskost",
    "L\U{00E5}ngkokt n\U{00F6}tk\U{00F6}tt i mustig skys\U{00E5}s smaksatt med kryddpeppar och lagerblad, serveras med potatis och inlagda r\U{00F6}dbetor.",
    149, [], ["l\U{00E5}ngkok", "k\U{00F6}tt", "mustigt"],
    "beef-stew.png", "Kalops i sk\U{00E5}l med potatis och r\U{00F6}dbetor")

  /** Fixture: dish SE-008, tagged 'glutenfritt'. */
  const LaxIUgn := MenuItem(
    "SE-008", "Lax i ugn med citron och dill", "Fisk",
    "Ugnsbakad laxfil\U{00E9} med citron, dill och sm\U{00F6}r, serverad med rostad potatis och sparris.",
    169, ["fisk", "laktos"], ["fr\U{00E4}scht", "ugn", "glutenfritt"],
    "baked-salmon.png", "Ugnsbakad lax med citron och dill")

  /** Fixture: dish SE-009, whose allergen list holds 'glutenfri'. */
  const Svampstroganoff := MenuItem(
    "SE-009", "Svampstroganoff (vegansk)", "Veganskt",
    "Kr\U{00E4}mig stroganoff p\U{00E5} skogssvamp, l\U{00F6}k och tomat, serverad med ris.",
    129, ["glutenfri"], ["v\U{00E4}xtbaserat", "kr\U{00E4}migt", "laktosfritt"],
    "stroganoff-vegan.png", "Vegansk svampstroganoff med ris")
}
