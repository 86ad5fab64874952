/**
 * The sixteen labels of the title table pass the filters of the scraper3.py
 * pick: each is its own cleaned form, is at least three characters long,
 * and neither is nor contains a place name. So a category found from the
 * title is always the final category.
 *
 * A place name cannot occur in a label when one of its characters is not
 * among the label's characters, or when it is longer than the label; the
 * few place names made only of a label's characters are ruled out by
 * scanning the label.
 */
module LabelFacts {

  import opened Common
  import opened Text
  import opened JsonValues
  import opened Page
  import opened Categories

  lemma PlacesAvoidedA(l: string, c0: char, k0: nat, c1: char, k1: nat, c2: char, k2: nat, c3: char, k3: nat, c4: char, k4: nat, c5: char, k5: nat, c6: char, k6: nat, c7: char, k7: nat)
    requires Excluded(l, "san josé", c0, k0)
    requires Excluded(l, "san jose", c1, k1)
    requires Excluded(l, "costa rica", c2, k2)
    requires Excluded(l, "inicio", c3, k3)
    requires Excluded(l, "home", c4, k4)
    requires Excluded(l, "alajuela", c5, k5)
    requires Excluded(l, "cartago", c6, k6)
    requires Excluded(l, "heredia", c7, k7)
    ensures AvoidsPlacesA(l)
  {
    ExcludedMeaning(l, "san josé", c0, k0);
    ExcludedMeaning(l, "san jose", c1, k1);
    ExcludedMeaning(l, "costa rica", c2, k2);
    ExcludedMeaning(l, "inicio", c3, k3);
    ExcludedMeaning(l, "home", c4, k4);
    ExcludedMeaning(l, "alajuela", c5, k5);
    ExcludedMeaning(l, "cartago", c6, k6);
    ExcludedMeaning(l, "heredia", c7, k7);
  }

  lemma PlacesAvoidedB(l: string, c0: char, k0: nat, c1: char, k1: nat, c2: char, k2: nat, c3: char, k3: nat, c4: char, k4: nat, c5: char, k5: nat, c6: char, k6: nat, c7: char, k7: nat)
    requires Excluded(l, "guanacaste", c0, k0)
    requires Excluded(l, "puntarenas", c1, k1)
    requires Excluded(l, "limón", c2, k2)
    requires Excluded(l, "santa ana", c3, k3)
    requires Excluded(l, "escazú", c4, k4)
    requires Excluded(l, "curridabat", c5, k5)
    requires Excluded(l, "desamparados", c6, k6)
    requires Excluded(l, "tibás", c7, k7)
    ensures AvoidsPlacesB(l)
  {
    ExcludedMeaning(l, "guanacaste", c0, k0);
    ExcludedMeaning(l, "puntarenas", c1, k1);
    ExcludedMeaning(l, "limón", c2, k2);
    ExcludedMeaning(l, "santa ana", c3, k3);
    ExcludedMeaning(l, "escazú", c4, k4);
    ExcludedMeaning(l, "curridabat", c5, k5);
    ExcludedMeaning(l, "desamparados", c6, k6);
    ExcludedMeaning(l, "tibás", c7, k7);
  }

  lemma PlacesAvoidedC(l: string, c0: char, k0: nat, c1: char, k1: nat, c2: char, k2: nat, c3: char, k3: nat, c4: char, k4: nat, c5: char, k5: nat, c6: char, k6: nat)
    requires Excluded(l, "san pedro", c0, k0)
    requires Excluded(l, "san francisco", c1, k1)
    requires Excluded(l, "guadalupe", c2, k2)
    requires Excluded(l, "moravia", c3, k3)
    requires Excluded(l, "pavas", c4, k4)
    requires Excluded(l, "goicoechea", c5, k5)
    requires Excluded(l, "montes de oca", c6, k6)
    ensures AvoidsPlacesC(l)
  {
    ExcludedMeaning(l, "san pedro", c0, k0);
    ExcludedMeaning(l, "san francisco", c1, k1);
    ExcludedMeaning(l, "guadalupe", c2, k2);
    ExcludedMeaning(l, "moravia", c3, k3);
    ExcludedMeaning(l, "pavas", c4, k4);
    ExcludedMeaning(l, "goicoechea", c5, k5);
    ExcludedMeaning(l, "montes de oca", c6, k6);
  }

  lemma PlacesAvoidedD(l: string, c0: char, k0: nat, c1: char, k1: nat, c2: char, k2: nat, c3: char, k3: nat, c4: char, k4: nat, c5: char, k5: nat, c6: char, k6: nat)
    requires Excluded(l, "san rafael", c0, k0)
    requires Excluded(l, "san antonio", c1, k1)
    requires Excluded(l, "pozos", c2, k2)
    requires Excluded(l, "hatillo", c3, k3)
    requires Excluded(l, "coronado", c4, k4)
    requires Excluded(l, "santo domingo", c5, k5)
    requires Excluded(l, "barva", c6, k6)
    ensures AvoidsPlacesD(l)
  {
    ExcludedMeaning(l, "san rafael", c0, k0);
    ExcludedMeaning(l, "san antonio", c1, k1);
    ExcludedMeaning(l, "pozos", c2, k2);
    ExcludedMeaning(l, "hatillo", c3, k3);
    ExcludedMeaning(l, "coronado", c4, k4);
    ExcludedMeaning(l, "santo domingo", c5, k5);
    ExcludedMeaning(l, "barva", c6, k6);
  }

  /** A text of the label's length that lacks these characters contains no place name. */
  lemma VentasCharsAvoidPlaces(l: string)
    requires |l| == 6
    requires 'b' !in l && 'c' !in l && 'i' !in l && 'o' !in l && 'p' !in l
    ensures AvoidsPlaces(l)
  {
    PlacesAvoidedA(l, 'a', 0, 'a', 0, 'a', 0, 'i', 0, 'o', 1, 'a', 0, 'a', 0, 'a', 0);
    PlacesAvoidedB(l, 'a', 0, 'a', 0, 'i', 1, 'a', 0, 'c', 2, 'a', 0, 'a', 0, 'i', 1);
    PlacesAvoidedC(l, 'a', 0, 'a', 0, 'a', 0, 'a', 0, 'p', 0, 'a', 0, 'a', 0);
    PlacesAvoidedD(l, 'a', 0, 'a', 0, 'p', 0, 'a', 0, 'a', 0, 'a', 0, 'b', 0);
  }

  lemma VentasPlain()
    ensures PlainFrom("Ventas", 0)
  {
    assert PlainFrom("Ventas", 4);
  }

  lemma VentasLowerAvoidsPlaces()
    ensures AvoidsPlaces(Lower("Ventas"))
  {
    assert LowerAvoids("Ventas", {'b', 'c', 'i', 'o', 'p'}, 4);
    LowerLacks("Ventas", {'b', 'c', 'i', 'o', 'p'});
    VentasCharsAvoidPlaces(Lower("Ventas"));
  }

  lemma CocinaLacksInicio()
    ensures !Contains(Lower("Cocina"), "inicio")
  {
    assert !ScanLower("Cocina", "inicio", 0);
    ScanLowerDecides("Cocina", "inicio");
  }

  /** A text of the label's length that lacks these characters contains no place name. */
  lemma CocinaCharsAvoidPlaces(l: string)
    requires |l| == 6
    requires 'b' !in l && 'm' !in l && 's' !in l
    requires !Contains(l, "inicio")
    ensures AvoidsPlaces(l)
  {
    PlacesAvoidedA(l, 'a', 0, 'a', 0, 'a', 0, 'a', 0, 'm', 2, 'a', 0, 'a', 0, 'a', 0);
    PlacesAvoidedB(l, 'a', 0, 'a', 0, 'm', 2, 'a', 0, 's', 1, 'a', 0, 'a', 0, 'b', 2);
    PlacesAvoidedC(l, 'a', 0, 'a', 0, 'a', 0, 'a', 0, 's', 4, 'a', 0, 'a', 0);
    PlacesAvoidedD(l, 'a', 0, 'a', 0, 's', 4, 'a', 0, 'a', 0, 'a', 0, 'b', 0);
  }

  lemma CocinaPlain()
    ensures PlainFrom("Cocina", 0)
  {
    assert PlainFrom("Cocina", 4);
  }

  lemma CocinaLowerAvoidsPlaces()
    ensures AvoidsPlaces(Lower("Cocina"))
  {
    assert LowerAvoids("Cocina", {'b', 'm', 's'}, 4);
    LowerLacks("Cocina", {'b', 'm', 's'});
    CocinaLacksInicio();
    CocinaCharsAvoidPlaces(Lower("Cocina"));
  }

  /** A text of the label's length that lacks these characters contains no place name. */
  lemma RestauranteCharsAvoidPlaces(l: string)
    requires |l| == 11
    requires ' ' !in l && 'b' !in l && 'c' !in l && 'i' !in l && 'l' !in l && 'o' !in l && 'p' !in l
    ensures AvoidsPlaces(l)
  {
    PlacesAvoidedA(l, ' ', 3, ' ', 3, 'c', 0, 'i', 0, 'o', 1, 'l', 1, 'c', 0, 'i', 5);
    PlacesAvoidedB(l, 'c', 5, 'p', 0, 'l', 0, ' ', 5, 'c', 2, 'c', 0, 'a', 0, 'i', 1);
    PlacesAvoidedC(l, ' ', 3, 'a', 0, 'l', 5, 'o', 1, 'p', 0, 'o', 1, 'a', 0);
    PlacesAvoidedD(l, ' ', 3, ' ', 3, 'p', 0, 'i', 3, 'c', 0, 'a', 0, 'b', 0);
  }

  lemma RestaurantePlain()
    ensures PlainFrom("Restaurante", 0)
  {
    assert PlainFrom("Restaurante", 8);
    assert PlainFrom("Restaurante", 4);
  }

  lemma RestauranteLowerAvoidsPlaces()
    ensures AvoidsPlaces(Lower("Restaurante"))
  {
    assert LowerAvoids("Restaurante", {' ', 'b', 'c', 'i', 'l', 'o', 'p'}, 8);
    assert LowerAvoids("Restaurante", {' ', 'b', 'c', 'i', 'l', 'o', 'p'}, 4);
    LowerLacks("Restaurante", {' ', 'b', 'c', 'i', 'l', 'o', 'p'});
    RestauranteCharsAvoidPlaces(Lower("Restaurante"));
  }

  /** A text of the label's length that lacks these characters contains no place name. */
  lemma AdministracionCharsAvoidPlaces(l: string)
    requires |l| == 14
    requires ' ' !in l && 'b' !in l && 'e' !in l && 'l' !in l && 'o' !in l && 'p' !in l
    ensures AvoidsPlaces(l)
  {
    PlacesAvoidedA(l, ' ', 3, ' ', 3, 'o', 1, 'o', 5, 'o', 1, 'l', 1, 'o', 6, 'e', 1);
    PlacesAvoidedB(l, 'e', 9, 'p', 0, 'l', 0, ' ', 5, 'e', 0, 'b', 7, 'e', 1, 'b', 2);
    PlacesAvoidedC(l, ' ', 3, ' ', 3, 'l', 5, 'o', 1, 'p', 0, 'o', 1, 'o', 1);
    PlacesAvoidedD(l, ' ', 3, ' ', 3, 'p', 0, 'l', 4, 'o', 1, 'o', 4, 'b', 0);
  }

  lemma AdministracionPlain()
    ensures PlainFrom("Administración", 0)
  {
    assert PlainFrom("Administración", 12);
    assert PlainFrom("Administración", 8);
    assert PlainFrom("Administración", 4);
  }

  lemma AdministracionLowerAvoidsPlaces()
    ensures AvoidsPlaces(Lower("Administración"))
  {
    assert LowerAvoids("Administración", {' ', 'b', 'e', 'l', 'o', 'p'}, 12);
    assert LowerAvoids("Administración", {' ', 'b', 'e', 'l', 'o', 'p'}, 8);
    assert LowerAvoids("Administración", {' ', 'b', 'e', 'l', 'o', 'p'}, 4);
    LowerLacks("Administración", {' ', 'b', 'e', 'l', 'o', 'p'});
    AdministracionCharsAvoidPlaces(Lower("Administración"));
  }

  lemma RecursosHumanosLacksHome()
    ensures !Contains(Lower("Recursos Humanos"), "home")
  {
    assert !ScanLower("Recursos Humanos", "home", 12);
    assert !ScanLower("Recursos Humanos", "home", 8);
    assert !ScanLower("Recursos Humanos", "home", 4);
    assert !ScanLower("Recursos Humanos", "home", 0);
    ScanLowerDecides("Recursos Humanos", "home");
  }

  /** A text of the label's length that lacks these characters contains no place name. */
  lemma RecursosHumanosCharsAvoidPlaces(l: string)
    requires |l| == 16
    requires 'b' !in l && 'd' !in l && 'f' !in l && 'i' !in l && 'j' !in l && 'p' !in l && 't' !in l && 'z' !in l
    requires !Contains(l, "home")
    ensures AvoidsPlaces(l)
  {
    PlacesAvoidedA(l, 'j', 4, 'j', 4, 't', 3, 'i', 0, 'a', 0, 'j', 3, 't', 3, 'd', 4);
    PlacesAvoidedB(l, 't', 8, 'p', 0, 'i', 1, 't', 3, 'z', 4, 'i', 4, 'd', 0, 't', 0);
    PlacesAvoidedC(l, 'p', 4, 'f', 4, 'd', 3, 'i', 5, 'p', 0, 'i', 2, 't', 3);
    PlacesAvoidedD(l, 'f', 6, 't', 6, 'p', 0, 't', 2, 'd', 6, 't', 3, 'b', 0);
  }

  lemma RecursosHumanosPlain()
    ensures PlainFrom("Recursos Humanos", 0)
  {
    assert PlainFrom("Recursos Humanos", 12);
    assert PlainFrom("Recursos Humanos", 8);
    assert PlainFrom("Recursos Humanos", 4);
  }

  lemma RecursosHumanosLowerAvoidsPlaces()
    ensures AvoidsPlaces(Lower("Recursos Humanos"))
  {
    assert LowerAvoids("Recursos Humanos", {'b', 'd', 'f', 'i', 'j', 'p', 't', 'z'}, 12);
    assert LowerAvoids("Recursos Humanos", {'b', 'd', 'f', 'i', 'j', 'p', 't', 'z'}, 8);
    assert LowerAvoids("Recursos Humanos", {'b', 'd', 'f', 'i', 'j', 'p', 't', 'z'}, 4);
    LowerLacks("Recursos Humanos", {'b', 'd', 'f', 'i', 'j', 'p', 't', 'z'});
    RecursosHumanosLacksHome();
    RecursosHumanosCharsAvoidPlaces(Lower("Recursos Humanos"));
  }

  lemma ContabilidadLacksInicio()
    ensures !Contains(Lower("Contabilidad"), "inicio")
  {
    assert !ScanLower("Contabilidad", "inicio", 4);
    assert !ScanLower("Contabilidad", "inicio", 0);
    ScanLowerDecides("Contabilidad", "inicio");
  }

  /** A text of the label's length that lacks these characters contains no place name. */
  lemma ContabilidadCharsAvoidPlaces(l: string)
    requires |l| == 12
    requires 'e' !in l && 'h' !in l && 'm' !in l && 'r' !in l && 's' !in l
    requires !Contains(l, "inicio")
    ensures AvoidsPlaces(l)
  {
    PlacesAvoidedA(l, 's', 0, 's', 0, 's', 2, 'a', 0, 'h', 0, 'e', 5, 'r', 2, 'h', 0);
    PlacesAvoidedB(l, 's', 7, 'r', 5, 'm', 2, 's', 0, 'e', 0, 'r', 2, 'e', 1, 's', 4);
    PlacesAvoidedC(l, 's', 0, 'a', 0, 'e', 8, 'm', 0, 's', 4, 'e', 5, 'a', 0);
    PlacesAvoidedD(l, 's', 0, 's', 0, 's', 4, 'h', 0, 'r', 2, 'a', 0, 'r', 2);
  }

  lemma ContabilidadPlain()
    ensures PlainFrom("Contabilidad", 0)
  {
    assert PlainFrom("Contabilidad", 8);
    assert PlainFrom("Contabilidad", 4);
  }

  lemma ContabilidadLowerAvoidsPlaces()
    ensures AvoidsPlaces(Lower("Contabilidad"))
  {
    assert LowerAvoids("Contabilidad", {'e', 'h', 'm', 'r', 's'}, 8);
    assert LowerAvoids("Contabilidad", {'e', 'h', 'm', 'r', 's'}, 4);
    LowerLacks("Contabilidad", {'e', 'h', 'm', 'r', 's'});
    ContabilidadLacksInicio();
    ContabilidadCharsAvoidPlaces(Lower("Contabilidad"));
  }

  /** A text of the label's length that lacks these characters contains no place name. */
  lemma TecnologiaCharsAvoidPlaces(l: string)
    requires |l| == 10
    requires 'h' !in l && 'i' !in l && 'r' !in l && 's' !in l && 'u' !in l
    ensures AvoidsPlaces(l)
  {
    PlacesAvoidedA(l, 's', 0, 's', 0, 's', 2, 'i', 0, 'h', 0, 'u', 4, 'r', 2, 'h', 0);
    PlacesAvoidedB(l, 'u', 1, 'u', 1, 'i', 1, 's', 0, 's', 1, 'u', 1, 'a', 0, 'i', 1);
    PlacesAvoidedC(l, 's', 0, 'a', 0, 'u', 1, 'r', 2, 's', 4, 'i', 2, 'a', 0);
    PlacesAvoidedD(l, 's', 0, 'a', 0, 's', 4, 'h', 0, 'r', 2, 'a', 0, 'r', 2);
  }

  lemma TecnologiaPlain()
    ensures PlainFrom("Tecnología", 0)
  {
    assert PlainFrom("Tecnología", 8);
    assert PlainFrom("Tecnología", 4);
  }

  lemma TecnologiaLowerAvoidsPlaces()
    ensures AvoidsPlaces(Lower("Tecnología"))
  {
    assert LowerAvoids("Tecnología", {'h', 'i', 'r', 's', 'u'}, 8);
    assert LowerAvoids("Tecnología", {'h', 'i', 'r', 's', 'u'}, 4);
    LowerLacks("Tecnología", {'h', 'i', 'r', 's', 'u'});
    TecnologiaCharsAvoidPlaces(Lower("Tecnología"));
  }

  /** A text of the label's length that lacks these characters contains no place name. */
  lemma MarketingCharsAvoidPlaces(l: string)
    requires |l| == 9
    requires 'b' !in l && 'd' !in l && 'l' !in l && 'o' !in l && 's' !in l
    ensures AvoidsPlaces(l)
  {
    PlacesAvoidedA(l, 's', 0, 's', 0, 'a', 0, 'o', 5, 'o', 1, 'l', 1, 'o', 6, 'd', 4);
    PlacesAvoidedB(l, 'a', 0, 'a', 0, 'l', 0, 's', 0, 's', 1, 'a', 0, 'a', 0, 'b', 2);
    PlacesAvoidedC(l, 's', 0, 'a', 0, 'd', 3, 'o', 1, 's', 4, 'a', 0, 'a', 0);
    PlacesAvoidedD(l, 'a', 0, 'a', 0, 'o', 1, 'l', 4, 'o', 1, 'a', 0, 'b', 0);
  }

  lemma MarketingPlain()
    ensures PlainFrom("Marketing", 0)
  {
    assert PlainFrom("Marketing", 8);
    assert PlainFrom("Marketing", 4);
  }

  lemma MarketingLowerAvoidsPlaces()
    ensures AvoidsPlaces(Lower("Marketing"))
  {
    assert LowerAvoids("Marketing", {'b', 'd', 'l', 'o', 's'}, 8);
    assert LowerAvoids("Marketing", {'b', 'd', 'l', 'o', 's'}, 4);
    LowerLacks("Marketing", {'b', 'd', 'l', 'o', 's'});
    MarketingCharsAvoidPlaces(Lower("Marketing"));
  }

  lemma ServicioAlClienteLacksCostaRica()
    ensures !Contains(Lower("Servicio Al Cliente"), "costa rica")
  {
    assert !ScanLower("Servicio Al Cliente", "costa rica", 8);
    assert !ScanLower("Servicio Al Cliente", "costa rica", 4);
    assert !ScanLower("Servicio Al Cliente", "costa rica", 0);
    ScanLowerDecides("Servicio Al Cliente", "costa rica");
  }

  lemma ServicioAlClienteLacksInicio()
    ensures !Contains(Lower("Servicio Al Cliente"), "inicio")
  {
    assert !ScanLower("Servicio Al Cliente", "inicio", 12);
    assert !ScanLower("Servicio Al Cliente", "inicio", 8);
    assert !ScanLower("Servicio Al Cliente", "inicio", 4);
    assert !ScanLower("Servicio Al Cliente", "inicio", 0);
    ScanLowerDecides("Servicio Al Cliente", "inicio");
  }

  lemma ServicioAlClienteLacksSantaAna()
    ensures !Contains(Lower("Servicio Al Cliente"), "santa ana")
  {
    assert !ScanLower("Servicio Al Cliente", "santa ana", 8);
    assert !ScanLower("Servicio Al Cliente", "santa ana", 4);
    assert !ScanLower("Servicio Al Cliente", "santa ana", 0);
    ScanLowerDecides("Servicio Al Cliente", "santa ana");
  }

  lemma ServicioAlClienteLacksSanAntonio()
    ensures !Contains(Lower("Servicio Al Cliente"), "san antonio")
  {
    assert !ScanLower("Servicio Al Cliente", "san antonio", 8);
    assert !ScanLower("Servicio Al Cliente", "san antonio", 4);
    assert !ScanLower("Servicio Al Cliente", "san antonio", 0);
    ScanLowerDecides("Servicio Al Cliente", "san antonio");
  }

  /** A text of the label's length that lacks these characters contains no place name. */
  lemma ServicioAlClienteCharsAvoidPlaces(l: string)
    requires |l| == 19
    requires 'b' !in l && 'd' !in l && 'f' !in l && 'g' !in l && 'h' !in l && 'j' !in l && 'm' !in l && 'p' !in l && 'z' !in l
    requires !Contains(l, "costa rica")
    requires !Contains(l, "inicio")
    requires !Contains(l, "santa ana")
    requires !Contains(l, "san antonio")
    ensures AvoidsPlaces(l)
  {
    PlacesAvoidedA(l, 'j', 4, 'j', 4, 'a', 0, 'a', 0, 'h', 0, 'j', 3, 'g', 5, 'h', 0);
    PlacesAvoidedB(l, 'g', 0, 'p', 0, 'm', 2, 'a', 0, 'z', 4, 'd', 5, 'd', 0, 'b', 2);
    PlacesAvoidedC(l, 'p', 4, 'f', 4, 'g', 0, 'm', 0, 'p', 0, 'g', 0, 'm', 0);
    PlacesAvoidedD(l, 'f', 6, 'a', 0, 'p', 0, 'h', 0, 'd', 6, 'd', 6, 'b', 0);
  }

  lemma ServicioAlClientePlain()
    ensures PlainFrom("Servicio Al Cliente", 0)
  {
    assert PlainFrom("Servicio Al Cliente", 16);
    assert PlainFrom("Servicio Al Cliente", 12);
    assert PlainFrom("Servicio Al Cliente", 8);
    assert PlainFrom("Servicio Al Cliente", 4);
  }

  lemma ServicioAlClienteLowerAvoidsPlaces()
    ensures AvoidsPlaces(Lower("Servicio Al Cliente"))
  {
    assert LowerAvoids("Servicio Al Cliente", {'b', 'd', 'f', 'g', 'h', 'j', 'm', 'p', 'z'}, 16);
    assert LowerAvoids("Servicio Al Cliente", {'b', 'd', 'f', 'g', 'h', 'j', 'm', 'p', 'z'}, 12);
    assert LowerAvoids("Servicio Al Cliente", {'b', 'd', 'f', 'g', 'h', 'j', 'm', 'p', 'z'}, 8);
    assert LowerAvoids("Servicio Al Cliente", {'b', 'd', 'f', 'g', 'h', 'j', 'm', 'p', 'z'}, 4);
    LowerLacks("Servicio Al Cliente", {'b', 'd', 'f', 'g', 'h', 'j', 'm', 'p', 'z'});
    ServicioAlClienteLacksCostaRica();
    ServicioAlClienteLacksInicio();
    ServicioAlClienteLacksSantaAna();
    ServicioAlClienteLacksSanAntonio();
    ServicioAlClienteCharsAvoidPlaces(Lower("Servicio Al Cliente"));
  }

  /** A text of the label's length that lacks these characters contains no place name. */
  lemma LogisticaCharsAvoidPlaces(l: string)
    requires |l| == 9
    requires 'b' !in l && 'e' !in l && 'h' !in l && 'n' !in l && 'p' !in l && 'r' !in l
    ensures AvoidsPlaces(l)
  {
    PlacesAvoidedA(l, 'n', 2, 'n', 2, 'a', 0, 'n', 1, 'h', 0, 'e', 5, 'r', 2, 'h', 0);
    PlacesAvoidedB(l, 'a', 0, 'a', 0, 'n', 4, 'n', 2, 'e', 0, 'a', 0, 'a', 0, 'b', 2);
    PlacesAvoidedC(l, 'n', 2, 'a', 0, 'p', 7, 'r', 2, 'p', 0, 'a', 0, 'a', 0);
    PlacesAvoidedD(l, 'a', 0, 'a', 0, 'p', 0, 'h', 0, 'r', 2, 'a', 0, 'b', 0);
  }

  lemma LogisticaPlain()
    ensures PlainFrom("Logística", 0)
  {
    assert PlainFrom("Logística", 8);
    assert PlainFrom("Logística", 4);
  }

  lemma LogisticaLowerAvoidsPlaces()
    ensures AvoidsPlaces(Lower("Logística"))
  {
    assert LowerAvoids("Logística", {'b', 'e', 'h', 'n', 'p', 'r'}, 8);
    assert LowerAvoids("Logística", {'b', 'e', 'h', 'n', 'p', 'r'}, 4);
    LowerLacks("Logística", {'b', 'e', 'h', 'n', 'p', 'r'});
    LogisticaCharsAvoidPlaces(Lower("Logística"));
  }

  /** A text of the label's length that lacks these characters contains no place name. */
  lemma SeguridadCharsAvoidPlaces(l: string)
    requires |l| == 9
    requires ' ' !in l && 'b' !in l && 'c' !in l && 'h' !in l && 'l' !in l && 'o' !in l && 'p' !in l
    ensures AvoidsPlaces(l)
  {
    PlacesAvoidedA(l, ' ', 3, ' ', 3, 'a', 0, 'c', 3, 'h', 0, 'l', 1, 'c', 0, 'h', 0);
    PlacesAvoidedB(l, 'a', 0, 'a', 0, 'l', 0, ' ', 5, 'c', 2, 'a', 0, 'a', 0, 'b', 2);
    PlacesAvoidedC(l, ' ', 3, 'a', 0, 'l', 5, 'o', 1, 'p', 0, 'a', 0, 'a', 0);
    PlacesAvoidedD(l, 'a', 0, 'a', 0, 'p', 0, 'h', 0, 'c', 0, 'a', 0, 'b', 0);
  }

  lemma SeguridadPlain()
    ensures PlainFrom("Seguridad", 0)
  {
    assert PlainFrom("Seguridad", 8);
    assert PlainFrom("Seguridad", 4);
  }

  lemma SeguridadLowerAvoidsPlaces()
    ensures AvoidsPlaces(Lower("Seguridad"))
  {
    assert LowerAvoids("Seguridad", {' ', 'b', 'c', 'h', 'l', 'o', 'p'}, 8);
    assert LowerAvoids("Seguridad", {' ', 'b', 'c', 'h', 'l', 'o', 'p'}, 4);
    LowerLacks("Seguridad", {' ', 'b', 'c', 'h', 'l', 'o', 'p'});
    SeguridadCharsAvoidPlaces(Lower("Seguridad"));
  }

  /** A text of the label's length that lacks these characters contains no place name. */
  lemma LimpiezaCharsAvoidPlaces(l: string)
    requires |l| == 8
    requires 'j' !in l && 'n' !in l && 'o' !in l && 'r' !in l && 's' !in l
    ensures AvoidsPlaces(l)
  {
    PlacesAvoidedA(l, 's', 0, 's', 0, 'a', 0, 'n', 1, 'o', 1, 'j', 3, 'r', 2, 'r', 2);
    PlacesAvoidedB(l, 'a', 0, 'a', 0, 'n', 4, 'a', 0, 's', 1, 'a', 0, 'a', 0, 's', 4);
    PlacesAvoidedC(l, 'a', 0, 'a', 0, 'a', 0, 'o', 1, 's', 4, 'a', 0, 'a', 0);
    PlacesAvoidedD(l, 'a', 0, 'a', 0, 'o', 1, 'o', 6, 'o', 1, 'a', 0, 'r', 2);
  }

  lemma LimpiezaPlain()
    ensures PlainFrom("Limpieza", 0)
  {
    assert PlainFrom("Limpieza", 4);
  }

  lemma LimpiezaLowerAvoidsPlaces()
    ensures AvoidsPlaces(Lower("Limpieza"))
  {
    assert LowerAvoids("Limpieza", {'j', 'n', 'o', 'r', 's'}, 4);
    LowerLacks("Limpieza", {'j', 'n', 'o', 'r', 's'});
    LimpiezaCharsAvoidPlaces(Lower("Limpieza"));
  }

  /** A text of the label's length that lacks these characters contains no place name. */
  lemma EducacionCharsAvoidPlaces(l: string)
    requires |l| == 9
    requires 'l' !in l && 'o' !in l && 'r' !in l && 's' !in l
    ensures AvoidsPlaces(l)
  {
    PlacesAvoidedA(l, 's', 0, 's', 0, 'a', 0, 'o', 5, 'o', 1, 'l', 1, 'r', 2, 'r', 2);
    PlacesAvoidedB(l, 'a', 0, 'a', 0, 'l', 0, 's', 0, 's', 1, 'a', 0, 'a', 0, 's', 4);
    PlacesAvoidedC(l, 's', 0, 'a', 0, 'l', 5, 'o', 1, 's', 4, 'a', 0, 'a', 0);
    PlacesAvoidedD(l, 'a', 0, 'a', 0, 'o', 1, 'l', 4, 'o', 1, 'a', 0, 'r', 2);
  }

  lemma EducacionPlain()
    ensures PlainFrom("Educación", 0)
  {
    assert PlainFrom("Educación", 8);
    assert PlainFrom("Educación", 4);
  }

  lemma EducacionLowerAvoidsPlaces()
    ensures AvoidsPlaces(Lower("Educación"))
  {
    assert LowerAvoids("Educación", {'l', 'o', 'r', 's'}, 8);
    assert LowerAvoids("Educación", {'l', 'o', 'r', 's'}, 4);
    LowerLacks("Educación", {'l', 'o', 'r', 's'});
    EducacionCharsAvoidPlaces(Lower("Educación"));
  }

  /** A text of the label's length that lacks these characters contains no place name. */
  lemma SaludCharsAvoidPlaces(l: string)
    requires |l| == 5
    requires 'b' !in l && 'm' !in l && 'p' !in l
    ensures AvoidsPlaces(l)
  {
    PlacesAvoidedA(l, 'a', 0, 'a', 0, 'a', 0, 'a', 0, 'm', 2, 'a', 0, 'a', 0, 'a', 0);
    PlacesAvoidedB(l, 'a', 0, 'a', 0, 'm', 2, 'a', 0, 'a', 0, 'a', 0, 'a', 0, 'b', 2);
    PlacesAvoidedC(l, 'a', 0, 'a', 0, 'a', 0, 'a', 0, 'p', 0, 'a', 0, 'a', 0);
    PlacesAvoidedD(l, 'a', 0, 'a', 0, 'p', 0, 'a', 0, 'a', 0, 'a', 0, 'b', 0);
  }

  lemma SaludPlain()
    ensures PlainFrom("Salud", 0)
  {
    assert PlainFrom("Salud", 4);
  }

  lemma SaludLowerAvoidsPlaces()
    ensures AvoidsPlaces(Lower("Salud"))
  {
    assert LowerAvoids("Salud", {'b', 'm', 'p'}, 4);
    LowerLacks("Salud", {'b', 'm', 'p'});
    SaludCharsAvoidPlaces(Lower("Salud"));
  }

  lemma ConstruccionLacksInicio()
    ensures !Contains(Lower("Construcción"), "inicio")
  {
    assert !ScanLower("Construcción", "inicio", 4);
    assert !ScanLower("Construcción", "inicio", 0);
    ScanLowerDecides("Construcción", "inicio");
  }

  /** A text of the label's length that lacks these characters contains no place name. */
  lemma ConstruccionCharsAvoidPlaces(l: string)
    requires |l| == 12
    requires 'a' !in l && 'b' !in l && 'm' !in l && 'p' !in l
    requires !Contains(l, "inicio")
    ensures AvoidsPlaces(l)
  {
    PlacesAvoidedA(l, 'a', 1, 'a', 1, 'a', 4, 'a', 0, 'm', 2, 'a', 0, 'a', 1, 'a', 6);
    PlacesAvoidedB(l, 'a', 2, 'p', 0, 'm', 2, 'a', 1, 'a', 3, 'a', 6, 'a', 3, 'b', 2);
    PlacesAvoidedC(l, 'a', 1, 'a', 0, 'a', 2, 'm', 0, 'p', 0, 'a', 9, 'a', 0);
    PlacesAvoidedD(l, 'a', 1, 'a', 1, 'p', 0, 'a', 1, 'a', 5, 'a', 0, 'b', 0);
  }

  lemma ConstruccionPlain()
    ensures PlainFrom("Construcción", 0)
  {
    assert PlainFrom("Construcción", 8);
    assert PlainFrom("Construcción", 4);
  }

  lemma ConstruccionLowerAvoidsPlaces()
    ensures AvoidsPlaces(Lower("Construcción"))
  {
    assert LowerAvoids("Construcción", {'a', 'b', 'm', 'p'}, 8);
    assert LowerAvoids("Construcción", {'a', 'b', 'm', 'p'}, 4);
    LowerLacks("Construcción", {'a', 'b', 'm', 'p'});
    ConstruccionLacksInicio();
    ConstruccionCharsAvoidPlaces(Lower("Construcción"));
  }

  /** A text of the label's length that lacks these characters contains no place name. */
  lemma DisenoCharsAvoidPlaces(l: string)
    requires |l| == 6
    requires 'a' !in l && 'b' !in l && 'c' !in l && 'm' !in l && 'p' !in l
    ensures AvoidsPlaces(l)
  {
    PlacesAvoidedA(l, 'a', 0, 'a', 0, 'a', 0, 'c', 3, 'm', 2, 'a', 0, 'a', 0, 'a', 0);
    PlacesAvoidedB(l, 'a', 0, 'a', 0, 'm', 2, 'a', 0, 'c', 2, 'a', 0, 'a', 0, 'b', 2);
    PlacesAvoidedC(l, 'a', 0, 'a', 0, 'a', 0, 'a', 0, 'p', 0, 'a', 0, 'a', 0);
    PlacesAvoidedD(l, 'a', 0, 'a', 0, 'p', 0, 'a', 0, 'a', 0, 'a', 0, 'b', 0);
  }

  lemma DisenoPlain()
    ensures PlainFrom("Diseño", 0)
  {
    assert PlainFrom("Diseño", 4);
  }

  lemma DisenoLowerAvoidsPlaces()
    ensures AvoidsPlaces(Lower("Diseño"))
  {
    assert LowerAvoids("Diseño", {'a', 'b', 'c', 'm', 'p'}, 4);
    LowerLacks("Diseño", {'a', 'b', 'c', 'm', 'p'});
    DisenoCharsAvoidPlaces(Lower("Diseño"));
  }

  /** The pick keeps a candidate unchanged: it is its own cleaned form and is acceptable. */
  predicate KeptAsIs(s: string) {
    CleanCandidate(s) == s && Acceptable(s)
  }

  lemma TitleLabelKept0()
    ensures forall k :: k == 0 ==> KeptAsIs(TitleLabels[k])
  {
    VentasPlain();
    VentasLowerAvoidsPlaces();
    PlainLabelAcceptable(TitleLabels[0]);
  }

  lemma TitleLabelKept1()
    ensures forall k :: k == 1 ==> KeptAsIs(TitleLabels[k])
  {
    CocinaPlain();
    CocinaLowerAvoidsPlaces();
    PlainLabelAcceptable(TitleLabels[1]);
  }

  lemma TitleLabelKept2()
    ensures forall k :: k == 2 ==> KeptAsIs(TitleLabels[k])
  {
    RestaurantePlain();
    RestauranteLowerAvoidsPlaces();
    PlainLabelAcceptable(TitleLabels[2]);
  }

  lemma TitleLabelKept3()
    ensures forall k :: k == 3 ==> KeptAsIs(TitleLabels[k])
  {
    AdministracionPlain();
    AdministracionLowerAvoidsPlaces();
    PlainLabelAcceptable(TitleLabels[3]);
  }

  lemma TitleLabelKept4()
    ensures forall k :: k == 4 ==> KeptAsIs(TitleLabels[k])
  {
    RecursosHumanosPlain();
    RecursosHumanosLowerAvoidsPlaces();
    PlainLabelAcceptable(TitleLabels[4]);
  }

  lemma TitleLabelKept5()
    ensures forall k :: k == 5 ==> KeptAsIs(TitleLabels[k])
  {
    ContabilidadPlain();
    ContabilidadLowerAvoidsPlaces();
    PlainLabelAcceptable(TitleLabels[5]);
  }

  lemma TitleLabelKept6()
    ensures forall k :: k == 6 ==> KeptAsIs(TitleLabels[k])
  {
    TecnologiaPlain();
    TecnologiaLowerAvoidsPlaces();
    PlainLabelAcceptable(TitleLabels[6]);
  }

  lemma TitleLabelKept7()
    ensures forall k :: k == 7 ==> KeptAsIs(TitleLabels[k])
  {
    MarketingPlain();
    MarketingLowerAvoidsPlaces();
    PlainLabelAcceptable(TitleLabels[7]);
  }

  lemma TitleLabelKept8()
    ensures forall k :: k == 8 ==> KeptAsIs(TitleLabels[k])
  {
    ServicioAlClientePlain();
    ServicioAlClienteLowerAvoidsPlaces();
    PlainLabelAcceptable(TitleLabels[8]);
  }

  lemma TitleLabelKept9()
    ensures forall k :: k == 9 ==> KeptAsIs(TitleLabels[k])
  {
    LogisticaPlain();
    LogisticaLowerAvoidsPlaces();
    PlainLabelAcceptable(TitleLabels[9]);
  }

  lemma TitleLabelKept10()
    ensures forall k :: k == 10 ==> KeptAsIs(TitleLabels[k])
  {
    SeguridadPlain();
    SeguridadLowerAvoidsPlaces();
    PlainLabelAcceptable(TitleLabels[10]);
  }

  lemma TitleLabelKept11()
    ensures forall k :: k == 11 ==> KeptAsIs(TitleLabels[k])
  {
    LimpiezaPlain();
    LimpiezaLowerAvoidsPlaces();
    PlainLabelAcceptable(TitleLabels[11]);
  }

  lemma TitleLabelKept12()
    ensures forall k :: k == 12 ==> KeptAsIs(TitleLabels[k])
  {
    EducacionPlain();
    EducacionLowerAvoidsPlaces();
    PlainLabelAcceptable(TitleLabels[12]);
  }

  lemma TitleLabelKept13()
    ensures forall k :: k == 13 ==> KeptAsIs(TitleLabels[k])
  {
    SaludPlain();
    SaludLowerAvoidsPlaces();
    PlainLabelAcceptable(TitleLabels[13]);
  }

  lemma TitleLabelKept14()
    ensures forall k :: k == 14 ==> KeptAsIs(TitleLabels[k])
  {
    ConstruccionPlain();
    ConstruccionLowerAvoidsPlaces();
    PlainLabelAcceptable(TitleLabels[14]);
  }

  lemma TitleLabelKept15()
    ensures forall k :: k == 15 ==> KeptAsIs(TitleLabels[k])
  {
    DisenoPlain();
    DisenoLowerAvoidsPlaces();
    PlainLabelAcceptable(TitleLabels[15]);
  }

  /** Every title label is its own cleaned form and survives the place-name and length filters. */
  lemma TitleLabelsKept()
    ensures forall k :: 0 <= k < |TitleRules| ==> KeptAsIs(TitleRules[k].name)
  {
    TitleLabelKept0();
    TitleLabelKept1();
    TitleLabelKept2();
    TitleLabelKept3();
    TitleLabelKept4();
    TitleLabelKept5();
    TitleLabelKept6();
    TitleLabelKept7();
    TitleLabelKept8();
    TitleLabelKept9();
    TitleLabelKept10();
    TitleLabelKept11();
    TitleLabelKept12();
    TitleLabelKept13();
    TitleLabelKept14();
    TitleLabelKept15();
  }

  /** A category found from the title is always the final one, whatever else is pooled. */
  lemma TitleCategoryIsFinal(title: Option<string>, tags: seq<string>, crumbs: seq<string>, scripts: seq<LdScript>)
    requires TitleCategory(title).Some?
    ensures FirstAcceptable(Cleaned(Pool(TitleCategory(title), tags, crumbs, scripts))) == TitleCategory(title)
  {
    TitleCategoryRule(title.value);
    TitleLabelsKept();
  }
}
